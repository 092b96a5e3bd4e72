/**
 * The session cookie and the multi-account list of `src/lib/session.ts`.
 *
 * The cookie jar is a name-to-value map held by a `CookieStore`. Signing and
 * verifying the session JWT and the JSON text of the account list are
 * functions passed in: `sign` (the signed token of a payload, clock and
 * secret included), `verify` (the payload of a token, or none when the
 * signature or the expiry is refused), `parse` (`JSON.parse`, none when it
 * throws) and `stringify` (`JSON.stringify`).
 */
module Session {
  import opened Wrappers

  datatype SessionPayload = SessionPayload(
    accessToken: string,
    refreshToken: Option<string>,
    expiresAt: int,
    tokenType: Option<string>,
    scope: Option<string>,
    idToken: Option<string>)

  /** An account without its session payload, as handed to `addAccountToMultiSession`. */
  datatype AccountInfo = AccountInfo(
    accountId: string,
    accountName: string,
    accountHandle: string,
    avatarUrl: Option<string>,
    color: string)

  datatype MultiAccountSession = MultiAccountSession(
    accountId: string,
    accountName: string,
    accountHandle: string,
    avatarUrl: Option<string>,
    payload: SessionPayload,
    color: string)

  /** `{ ...account, payload }` */
  function WithPayload(account: AccountInfo, payload: SessionPayload): MultiAccountSession {
    MultiAccountSession(account.accountId, account.accountName, account.accountHandle,
                        account.avatarUrl, payload, account.color)
  }

  const MultiAccountsCookie: string := "fanvue_multi_accounts"

  // ---------------------------------------------------------------------------
  // The account list
  // ---------------------------------------------------------------------------

  /** `accounts.some(acc => acc.accountId === id)` */
  predicate HasAccount(accounts: seq<MultiAccountSession>, id: string) {
    exists i :: 0 <= i < |accounts| && accounts[i].accountId == id
  }

  /** No two entries share an id. */
  predicate UniqueIds(accounts: seq<MultiAccountSession>) {
    forall i, j :: 0 <= i < j < |accounts| ==> accounts[i].accountId != accounts[j].accountId
  }

  /**
   * The list `addAccountToMultiSession` stores: unchanged when the id is
   * already there, else the new entry appended.
   */
  function AddIfAbsent(accounts: seq<MultiAccountSession>, account: AccountInfo, payload: SessionPayload)
    : (r: seq<MultiAccountSession>)
    ensures HasAccount(r, account.accountId)
    ensures |accounts| <= |r| <= |accounts| + 1 && r[..|accounts|] == accounts
    ensures |r| == |accounts| + 1 <==> !HasAccount(accounts, account.accountId)
    ensures |r| == |accounts| + 1 ==> r[|accounts|] == WithPayload(account, payload)
  {
    if HasAccount(accounts, account.accountId) then accounts
    else
      var r := accounts + [WithPayload(account, payload)];
      assert r[|accounts|].accountId == account.accountId;
      r
  }

  /** Adding keeps the ids unique. */
  lemma AddKeepsIdsUnique(accounts: seq<MultiAccountSession>, account: AccountInfo, payload: SessionPayload)
    requires UniqueIds(accounts)
    ensures UniqueIds(AddIfAbsent(accounts, account, payload))
  {
    var r := AddIfAbsent(accounts, account, payload);
    if |r| > |accounts| {
      forall i, j | 0 <= i < j < |r|
        ensures r[i].accountId != r[j].accountId
      {
        if j == |accounts| {
          assert r[i] == accounts[i];
        } else {
          assert r[i] == accounts[i] && r[j] == accounts[j];
        }
      }
    }
  }

  /** `accounts.filter(account => account.accountId !== id)` */
  function RemoveById(accounts: seq<MultiAccountSession>, id: string): (r: seq<MultiAccountSession>)
    ensures !HasAccount(r, id)
    ensures forall a :: a in r <==> a in accounts && a.accountId != id
    ensures |r| <= |accounts|
  {
    if accounts == [] then []
    else
      var rest := RemoveById(accounts[..|accounts| - 1], id);
      var last := accounts[|accounts| - 1];
      assert forall a :: a in accounts <==> a in accounts[..|accounts| - 1] || a == last;
      if last.accountId == id then rest else rest + [last]
  }

  /** Removing from a list splits over its parts, so the remaining entries keep their order. */
  lemma {:induction false} RemoveDistributes(a: seq<MultiAccountSession>, b: seq<MultiAccountSession>, id: string)
    ensures RemoveById(a + b, id) == RemoveById(a, id) + RemoveById(b, id)
    decreases |b|
  {
    if b == [] {
      assert a + b == a;
    } else {
      var b' := b[..|b| - 1];
      assert (a + b)[..|a + b| - 1] == a + b';
      RemoveDistributes(a, b', id);
    }
  }

  /** Removing an id that is not in the list gives back the same list. */
  lemma {:induction false} RemoveAbsent(accounts: seq<MultiAccountSession>, id: string)
    requires !HasAccount(accounts, id)
    ensures RemoveById(accounts, id) == accounts
    decreases |accounts|
  {
    if accounts != [] {
      var init, last := accounts[..|accounts| - 1], accounts[|accounts| - 1];
      assert accounts == init + [last];
      assert forall i :: 0 <= i < |init| ==> init[i] == accounts[i];
      RemoveKeepsLast(accounts, id);
      RemoveAbsent(init, id);
    }
  }

  lemma RemoveKeepsLast(accounts: seq<MultiAccountSession>, id: string)
    requires accounts != [] && accounts[|accounts| - 1].accountId != id
    ensures RemoveById(accounts, id) == RemoveById(accounts[..|accounts| - 1], id) + [accounts[|accounts| - 1]]
  {
  }

  /** Removing undoes adding a new id. */
  lemma RemoveUndoesAdd(accounts: seq<MultiAccountSession>, account: AccountInfo, payload: SessionPayload)
    requires !HasAccount(accounts, account.accountId)
    ensures RemoveById(AddIfAbsent(accounts, account, payload), account.accountId) == accounts
  {
    var entry := WithPayload(account, payload);
    RemoveDistributes(accounts, [entry], account.accountId);
    RemoveAbsent(accounts, account.accountId);
    assert [entry][..0] == [];
  }

  /** Entry `i` is the first with that id. */
  predicate IsFirstMatch(accounts: seq<MultiAccountSession>, id: string, i: int) {
    0 <= i < |accounts| && accounts[i].accountId == id
    && forall j :: 0 <= j < i ==> accounts[j].accountId != id
  }

  /** Past a first entry with another id, matches in the tail are matches one further on. */
  lemma MatchInTail(accounts: seq<MultiAccountSession>, id: string)
    requires accounts != [] && accounts[0].accountId != id
    ensures HasAccount(accounts, id) ==> HasAccount(accounts[1..], id)
    ensures forall i :: IsFirstMatch(accounts[1..], id, i) ==>
              IsFirstMatch(accounts, id, i + 1) && accounts[i + 1] == accounts[1..][i]
  {
    if HasAccount(accounts, id) {
      var i :| 0 <= i < |accounts| && accounts[i].accountId == id;
      assert accounts[1..][i - 1] == accounts[i];
    }
  }

  /** `accounts.find(acc => acc.accountId === id)`: the first entry with that id. */
  function FindById(accounts: seq<MultiAccountSession>, id: string): (r: Option<MultiAccountSession>)
    ensures r.None? <==> !HasAccount(accounts, id)
    ensures r.Some? ==> exists i :: IsFirstMatch(accounts, id, i) && accounts[i] == r.value
  {
    if accounts == [] then None
    else if accounts[0].accountId == id then
      assert IsFirstMatch(accounts, id, 0);
      Some(accounts[0])
    else
      MatchInTail(accounts, id);
      FindById(accounts[1..], id)
  }

  /** After adding a new id, finding it gives the entry just added. */
  lemma FindAfterAdd(accounts: seq<MultiAccountSession>, account: AccountInfo, payload: SessionPayload)
    requires !HasAccount(accounts, account.accountId)
    ensures FindById(AddIfAbsent(accounts, account, payload), account.accountId) == Some(WithPayload(account, payload))
  {
    var r := AddIfAbsent(accounts, account, payload);
    var found := FindById(r, account.accountId);
    var i :| IsFirstMatch(r, account.accountId, i) && r[i] == found.value;
    assert forall k :: 0 <= k < |accounts| ==> r[k] == accounts[k];
  }

  /** After removing an id, nothing with that id is found. */
  lemma FindAfterRemove(accounts: seq<MultiAccountSession>, id: string)
    ensures FindById(RemoveById(accounts, id), id) == None
  {
  }

  // ---------------------------------------------------------------------------
  // Reading the cookies
  // ---------------------------------------------------------------------------

  /** `getMultiAccounts` on a jar: the parsed list, or none when the cookie is absent, empty or not JSON. */
  function AccountsIn(jar: map<string, string>, parse: string -> Option<seq<MultiAccountSession>>)
    : (r: seq<MultiAccountSession>)
    ensures MultiAccountsCookie !in jar || jar[MultiAccountsCookie] == "" ==> r == []
    ensures MultiAccountsCookie in jar && parse(jar[MultiAccountsCookie]).None? ==> r == []
    ensures MultiAccountsCookie in jar && jar[MultiAccountsCookie] != "" && parse(jar[MultiAccountsCookie]).Some? ==>
              r == parse(jar[MultiAccountsCookie]).value
  {
    if MultiAccountsCookie !in jar || jar[MultiAccountsCookie] == "" then []
    else parse(jar[MultiAccountsCookie]).GetOr([])
  }

  /** `getSession` on a jar: the verified payload of the session cookie, if there is one. */
  function SessionIn(jar: map<string, string>, name: string, verify: string -> Option<SessionPayload>)
    : (r: Option<SessionPayload>)
    ensures name !in jar || jar[name] == "" ==> r == None
    ensures r.Some? ==> verify(jar[name]) == r
  {
    if name !in jar || jar[name] == "" then None else verify(jar[name])
  }

  /** `JSON.parse` reads back what `JSON.stringify` wrote, which is never empty. */
  ghost predicate RoundTrips(parse: string -> Option<seq<MultiAccountSession>>,
                             stringify: seq<MultiAccountSession> -> string) {
    forall accounts :: stringify(accounts) != "" && parse(stringify(accounts)) == Some(accounts)
  }

  /** A stored list reads back as itself. */
  lemma StoredListReadsBack(jar: map<string, string>, accounts: seq<MultiAccountSession>,
                            parse: string -> Option<seq<MultiAccountSession>>,
                            stringify: seq<MultiAccountSession> -> string)
    requires RoundTrips(parse, stringify)
    ensures AccountsIn(jar[MultiAccountsCookie := stringify(accounts)], parse) == accounts
  {
    assert stringify(accounts) != "" && parse(stringify(accounts)) == Some(accounts);
  }

  /** A signed session reads back as its payload when the verifier accepts what the signer produced. */
  lemma StoredSessionReadsBack(jar: map<string, string>, name: string, token: string, payload: SessionPayload,
                               verify: string -> Option<SessionPayload>)
    requires token != "" && verify(token) == Some(payload)
    ensures SessionIn(jar[name := token], name, verify) == Some(payload)
  {
  }

  // ---------------------------------------------------------------------------
  // The cookie store
  // ---------------------------------------------------------------------------

  class CookieStore {
    var jar: map<string, string>
    /** `SESSION_COOKIE_NAME` */
    const sessionName: string

    constructor(sessionName: string)
      ensures this.sessionName == sessionName && jar == map[]
    {
      this.sessionName := sessionName;
      jar := map[];
    }

    /** `getMultiAccounts`: the parsed list of the cookie, empty when it is absent, empty or unreadable. */
    function GetMultiAccounts(parse: string -> Option<seq<MultiAccountSession>>): (r: seq<MultiAccountSession>)
      reads this
      ensures MultiAccountsCookie !in jar || jar[MultiAccountsCookie] == "" ==> r == []
      ensures MultiAccountsCookie in jar && parse(jar[MultiAccountsCookie]).None? ==> r == []
      ensures MultiAccountsCookie in jar && jar[MultiAccountsCookie] != "" && parse(jar[MultiAccountsCookie]).Some? ==>
                r == parse(jar[MultiAccountsCookie]).value
    {
      AccountsIn(jar, parse)
    }

    /** `getSession`: the verified payload of the session cookie, none without a non-empty cookie. */
    function GetSession(verify: string -> Option<SessionPayload>): (r: Option<SessionPayload>)
      reads this
      ensures sessionName !in jar || jar[sessionName] == "" ==> r == None
      ensures sessionName in jar && jar[sessionName] != "" ==> r == verify(jar[sessionName])
    {
      SessionIn(jar, sessionName, verify)
    }

    /** `setSession`: the session cookie holds the signed token of the payload. */
    method SetSession(payload: SessionPayload, sign: SessionPayload -> string)
      modifies this
      ensures jar == old(jar)[sessionName := sign(payload)]
    {
      jar := jar[sessionName := sign(payload)];
    }

    /** `clearSession`: the session cookie is gone, so there is no session. */
    method ClearSession()
      modifies this
      ensures jar == old(jar) - {sessionName}
      ensures forall verify :: SessionIn(jar, sessionName, verify) == None
    {
      jar := jar - {sessionName};
    }

    /**
     * `addAccountToMultiSession`: the list cookie is written only when the id
     * is new, and then holds the old list with the new entry appended.
     */
    method AddAccountToMultiSession(account: AccountInfo, payload: SessionPayload,
                                    parse: string -> Option<seq<MultiAccountSession>>,
                                    stringify: seq<MultiAccountSession> -> string)
      modifies this
      ensures var existing := AccountsIn(old(jar), parse);
              if HasAccount(existing, account.accountId) then jar == old(jar)
              else jar == old(jar)[MultiAccountsCookie := stringify(AddIfAbsent(existing, account, payload))]
      ensures RoundTrips(parse, stringify) ==>
              AccountsIn(jar, parse) == AddIfAbsent(AccountsIn(old(jar), parse), account, payload)
    {
      var existingAccounts := GetMultiAccounts(parse);
      var accountExists := HasAccount(existingAccounts, account.accountId);
      if !accountExists {
        var updatedAccounts := existingAccounts + [WithPayload(account, payload)];
        jar := jar[MultiAccountsCookie := stringify(updatedAccounts)];
        if RoundTrips(parse, stringify) {
          StoredListReadsBack(old(jar), updatedAccounts, parse, stringify);
        }
      }
    }

    /** `removeAccountFromMultiSession`: the list cookie is rewritten without the id. */
    method RemoveAccountFromMultiSession(accountId: string,
                                         parse: string -> Option<seq<MultiAccountSession>>,
                                         stringify: seq<MultiAccountSession> -> string)
      modifies this
      ensures jar == old(jar)[MultiAccountsCookie := stringify(RemoveById(AccountsIn(old(jar), parse), accountId))]
      ensures RoundTrips(parse, stringify) ==>
              AccountsIn(jar, parse) == RemoveById(AccountsIn(old(jar), parse), accountId)
    {
      var existingAccounts := GetMultiAccounts(parse);
      var updatedAccounts := RemoveById(existingAccounts, accountId);
      jar := jar[MultiAccountsCookie := stringify(updatedAccounts)];
      if RoundTrips(parse, stringify) {
        StoredListReadsBack(old(jar), updatedAccounts, parse, stringify);
      }
    }

    /**
     * `setActiveAccount`: the session becomes the first matching account's
     * payload and that account is returned; with no match, nothing changes.
     */
    method SetActiveAccount(accountId: string, parse: string -> Option<seq<MultiAccountSession>>,
                            sign: SessionPayload -> string) returns (r: Option<MultiAccountSession>)
      modifies this
      ensures r == FindById(AccountsIn(old(jar), parse), accountId)
      ensures r.None? ==> jar == old(jar)
      ensures r.Some? ==> jar == old(jar)[sessionName := sign(r.value.payload)]
    {
      var accounts := GetMultiAccounts(parse);
      r := FindById(accounts, accountId);
      if r.Some? {
        SetSession(r.value.payload, sign);
      }
    }
  }
}
