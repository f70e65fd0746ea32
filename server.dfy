/**
  The HTTP front door: the API-key check every /apps/:appId route passes through,
  and the port taken from the configured port value.
 */
module Access {
  import opened Values
  import opened Seqs
  import opened Relay

  /** A configured client: its app id and its API key. */
  datatype Client = Client(appId: string, key: string)

  /** What the check reads from a request; each is "" when absent. */
  datatype Request = Request(appId: string, authorization: string, authKeyQuery: string)

  /** `s.replace(t, "")` with a string pattern: the first occurrence of `t` is removed. */
  function RemoveFirst(s: string, t: string): string
    decreases |s|
  {
    if StartsWith(s, t) then s[|t|..]
    else if |s| == 0 then s
    else [s[0]] + RemoveFirst(s[1..], t)
  }

  /** `getAppId`: the route's app id, `None` (false) when it is empty. */
  function GetAppId(req: Request): Option<string> {
    if req.appId != "" then Some(req.appId) else None
  }

  /** `getAuthKey`: the authorization header without its first "Bearer ", else the `auth_key` query value, else `None` (false). */
  function GetAuthKey(req: Request): Option<string> {
    if req.authorization != "" then Some(RemoveFirst(req.authorization, "Bearer "))
    else if req.authKeyQuery != "" then Some(req.authKeyQuery)
    else None
  }

  /** `canAccess`: the first client with the request's app id decides, by comparing keys. */
  predicate CanAccess(req: Request, clients: seq<Client>) {
    var appId, key := GetAppId(req), GetAuthKey(req);
    if key.Some? && key.value != "" && appId.Some? then
      match FindFirst(clients, (c: Client) => c.appId == appId.value)
      case Some(client) => client.key == key.value
      case None => false
    else false
  }

  /** `unauthorizedResponse`: status 403 with `error: 'Unauthorized'`. */
  function UnauthorizedResponse(): Response {
    Response(403, ErrorMessage("Unauthorized"))
  }

  /** The `appId` route parameter handler: `None` lets the request through (`next()`), otherwise the 403 answer ends it. */
  function Guard(req: Request, clients: seq<Client>): Option<Response> {
    if CanAccess(req, clients) then None else Some(UnauthorizedResponse())
  }

  /** Removing a pattern that does not occur leaves the text alone. */
  lemma {:induction false} RemoveFirstAbsent(s: string, t: string)
    requires forall i :: !OccursAt(s, t, i)
    ensures RemoveFirst(s, t) == s
    decreases |s|
  {
    assert !OccursAt(s, t, 0);
    if |s| > 0 {
      forall i | OccursAt(s[1..], t, i) ensures false {
        assert s[1..][i..i + |t|] == s[i + 1..i + 1 + |t|];
        assert OccursAt(s, t, i + 1);
      }
      RemoveFirstAbsent(s[1..], t);
      assert s == [s[0]] + s[1..];
    }
  }

  /** Removing a pattern cuts out exactly its leftmost occurrence. */
  lemma {:induction false} RemoveFirstLeftmost(s: string, t: string, i: int)
    requires OccursAt(s, t, i) && forall j :: 0 <= j < i ==> !OccursAt(s, t, j)
    ensures RemoveFirst(s, t) == s[..i] + s[i + |t|..]
    decreases i
  {
    if i > 0 {
      assert !OccursAt(s, t, 0);
      var tail := s[1..];
      assert tail[i - 1..i - 1 + |t|] == s[i..i + |t|];
      forall j | 0 <= j < i - 1 ensures !OccursAt(tail, t, j) {
        assert !OccursAt(s, t, j + 1);
        if j + |t| <= |tail| {
          assert tail[j..j + |t|] == s[j + 1..j + 1 + |t|];
        }
      }
      RemoveFirstLeftmost(tail, t, i - 1);
      assert s[..i] == [s[0]] + tail[..i - 1];
      assert s[i + |t|..] == tail[i - 1 + |t|..];
    }
  }

  /** The header wins over the query; "Bearer " is removed from the header wherever it first occurs. */
  lemma AuthKeyExamples()
    ensures GetAuthKey(Request("app", "Bearer secret", "other")) == Some("secret")
    ensures GetAuthKey(Request("app", "", "secret")) == Some("secret")
    ensures GetAuthKey(Request("app", "", "")) == None
  {
    assert StartsWith("Bearer secret", "Bearer ");
    assert "Bearer secret"[7..] == "secret";
  }

  /**
    Access is granted exactly when the request has a non-empty key and an app id,
    and the first configured client with that app id has that key; no client with
    the app id, or a later client's matching key, does not help.
   */
  lemma CanAccessIff(req: Request, clients: seq<Client>)
    ensures CanAccess(req, clients) <==>
      GetAuthKey(req).Some? && GetAuthKey(req).value != "" && req.appId != "" &&
      exists i :: 0 <= i < |clients| && clients[i].appId == req.appId && clients[i].key == GetAuthKey(req).value &&
        forall j :: 0 <= j < i ==> clients[j].appId != req.appId
  {
    var test := (c: Client) => c.appId == req.appId;
    FindFirstIff(clients, test);
    if CanAccess(req, clients) {
      var i :| 0 <= i < |clients| && clients[i] == FindFirst(clients, test).value && test(clients[i]) &&
        forall j :: 0 <= j < i ==> !test(clients[j]);
      assert clients[i].key == GetAuthKey(req).value;
    }
    if GetAuthKey(req).Some? && GetAuthKey(req).value != "" && req.appId != "" &&
       exists i :: 0 <= i < |clients| && clients[i].appId == req.appId && clients[i].key == GetAuthKey(req).value &&
         forall j :: 0 <= j < i ==> clients[j].appId != req.appId
    {
      var i :| 0 <= i < |clients| && clients[i].appId == req.appId && clients[i].key == GetAuthKey(req).value &&
        forall j :: 0 <= j < i ==> clients[j].appId != req.appId;
      var k :| 0 <= k < |clients| && clients[k] == FindFirst(clients, test).value && test(clients[k]) &&
        forall j :: 0 <= j < k ==> !test(clients[j]);
      assert k == i;
    }
  }

  /** The route guard lets a request through exactly when access is granted, and otherwise answers 403 "Unauthorized". */
  lemma GuardRule(req: Request, clients: seq<Client>)
    ensures Guard(req, clients).None? <==>
      req.appId != "" && GetAuthKey(req).Some? && GetAuthKey(req).value != "" &&
      exists i :: 0 <= i < |clients| && clients[i].appId == req.appId && clients[i].key == GetAuthKey(req).value &&
        forall j :: 0 <= j < i ==> clients[j].appId != req.appId
    ensures Guard(req, clients).Some? ==> Guard(req, clients).value == Response(403, ErrorMessage("Unauthorized"))
  {
    CanAccessIff(req, clients);
  }

  // ---------------------------------------------------------------------------
  // The port

  /** The number of digits the text ends with. */
  function TrailingDigits(t: string): nat
    decreases |t|
  {
    if |t| == 0 || !IsDigit(t[|t| - 1]) then 0 else 1 + TrailingDigits(t[..|t| - 1])
  }

  /** The text without one trailing '/'. */
  function WithoutSlash(s: string): string {
    if |s| > 0 && s[|s| - 1] == '/' then s[..|s| - 1] else s
  }

  /** Every character of `t` from index `a` on is a digit. */
  predicate DigitsFrom(t: string, a: int) {
    forall j :: 0 <= j < |t| && a <= j ==> IsDigit(t[j])
  }

  /** A stretch of digits, cut out, is a digit string. */
  lemma DigitSlice(t: string, a: int)
    requires 0 <= a <= |t| && DigitsFrom(t, a)
    ensures AllDigits(t[a..])
  {
    var x := t[a..];
    forall j | 0 <= j < |x| ensures IsDigit(x[j]) {
      assert x[j] == t[a + j];
    }
  }

  /**
    `getPort` on the configured port's text: the last (at most five) of the digits
    it ends with, before one optional '/'. `None` where fewer than two digits end
    it, so that the pattern does not match and indexing the match throws.
   */
  function GetPort(s: string): Option<nat> {
    var body := WithoutSlash(s);
    var n := TrailingDigits(body);
    if n < 2 then None
    else
      var k := if n < 5 then n else 5;
      TrailingDigitsRule(body);
      DigitSlice(body, |body| - k);
      Some(DecimalValue(body[|body| - k..]))
  }

  /**
    `/([0-9]{2,5})[\/]?$/` matches starting at `i` with `k` digits, followed by a
    '/' when `slash`, and then the end of the text.
   */
  predicate PortMatch(s: string, i: int, k: int, slash: bool) {
    0 <= i && 2 <= k <= 5 && i + k + (if slash then 1 else 0) == |s| &&
    AllDigits(s[i..i + k]) && (slash ==> s[i + k] == '/')
  }

  /** The trailing digits are digits, and the character before them is not. */
  lemma {:induction false} TrailingDigitsRule(t: string)
    ensures TrailingDigits(t) <= |t|
    ensures DigitsFrom(t, |t| - TrailingDigits(t))
    ensures TrailingDigits(t) < |t| ==> !IsDigit(t[|t| - TrailingDigits(t) - 1])
    decreases |t|
  {
    if |t| > 0 && IsDigit(t[|t| - 1]) {
      var init := t[..|t| - 1];
      TrailingDigitsRule(init);
      forall j | |t| - TrailingDigits(t) <= j < |t| - 1 ensures IsDigit(t[j]) {
        assert t[j] == init[j];
      }
    }
  }

  /** A text ending in `k` digits has at least `k` trailing digits. */
  lemma {:induction false} TrailingDigitsAtLeast(t: string, k: nat)
    requires k <= |t| && DigitsFrom(t, |t| - k)
    ensures TrailingDigits(t) >= k
    decreases k
  {
    if k > 0 {
      var init := t[..|t| - 1];
      forall j | |init| - (k - 1) <= j < |init| ensures IsDigit(init[j]) {
        assert init[j] == t[j];
      }
      TrailingDigitsAtLeast(init, k - 1);
    }
  }

  /** Every match of the pattern ends where `WithoutSlash` puts the end, with at most the trailing digits. */
  lemma PortMatchShape(s: string, i: int, k: int, slash: bool)
    requires PortMatch(s, i, k, slash)
    ensures i + k == |WithoutSlash(s)| && k <= TrailingDigits(WithoutSlash(s))
  {
    var body := WithoutSlash(s);
    var x := s[i..i + k];
    assert x[k - 1] == s[i + k - 1];
    assert |body| == i + k;
    forall j | i <= j < i + k ensures IsDigit(body[j]) {
      assert body[j] == s[j] == x[j - i];
    }
    TrailingDigitsAtLeast(body, k);
  }

  /**
    `getPort` answers as the regular expression does: `None` exactly when the
    pattern matches nowhere, and otherwise the number the leftmost match's digits
    spell.
   */
  lemma GetPortIsLeftmostMatch(s: string)
    ensures GetPort(s).None? <==> forall i, k, slash :: !PortMatch(s, i, k, slash)
    ensures GetPort(s).Some? ==> exists i, k, slash ::
      PortMatch(s, i, k, slash) && GetPort(s).value == DecimalValue(s[i..i + k]) &&
      forall i', k', slash' :: PortMatch(s, i', k', slash') ==> i <= i'
  {
    var body := WithoutSlash(s);
    var n := TrailingDigits(body);
    TrailingDigitsRule(body);
    forall i, k, slash | PortMatch(s, i, k, slash) ensures n >= 2 && i >= |body| - (if n < 5 then n else 5) {
      PortMatchShape(s, i, k, slash);
    }
    if n >= 2 {
      var k := if n < 5 then n else 5;
      var i := |body| - k;
      var slash := |s| > 0 && s[|s| - 1] == '/';
      assert body == s[..|body|];
      assert s[i..i + k] == body[i..];
      DigitSlice(body, i);
      assert PortMatch(s, i, k, slash);
    }
  }

  /** Ports as configured values look: a number with a trailing slash, and too few digits. */
  lemma PortExamples()
    ensures GetPort("6001/") == Some(6001)
    ensures GetPort("7").None? && GetPort("80//").None?
  {
    var t := "6001";
    assert WithoutSlash("6001/") == t;
    assert t[..3] == "600" && "600"[..2] == "60" && "60"[..1] == "6" && "6"[..0] == "";
    assert TrailingDigits(t) == 4;
    assert t[0..] == t;
    assert DecimalValue(t) == 6001;
    assert WithoutSlash("80//") == "80/";
  }

  /** A digit run longer than five gives its last five digits. */
  lemma LongPortExample()
    ensures GetPort("1234567") == Some(34567)
  {
    var long := "1234567";
    assert long[..6] == "123456" && "123456"[..5] == "12345" && "12345"[..4] == "1234" && "1234"[..3] == "123";
    assert "123"[..2] == "12" && "12"[..1] == "1" && "1"[..0] == "";
    assert TrailingDigits(long) == 7;
    var last := long[2..];
    assert last == "34567";
    assert last[..4] == "3456" && "3456"[..3] == "345" && "345"[..2] == "34" && "34"[..1] == "3" && "3"[..0] == "";
    assert DecimalValue(last) == 34567;
  }

  /** A numeric port of two to five digits, written out by `String(port)`, is used as it is. */
  lemma NumericPortKept(n: nat)
    requires 2 <= |NatText(n)| <= 5
    ensures GetPort(Text(Num(n))) == Some(n)
  {
    var t := NatText(n);
    NatTextRoundTrip(n);
    assert Text(Num(n)) == t;
    assert IsDigit(t[|t| - 1]);
    assert WithoutSlash(t) == t;
    TrailingDigitsAtLeast(t, |t|);
    TrailingDigitsRule(t);
    assert t[0..] == t;
  }
}
