/** The logic of the HTTP client (app/utils/plainFetch.ts): reading a
    cookie from `document.cookie`, the Authorization header and the error
    message of a failed response, and `genParams`, the query-string builder.
    The transport itself is not part of this model; percent-encoding and
    `decodeURIComponent` are parameters. */
module PlainFetch {
  import opened Common
  import opened Text

  /** The cookie the HTTP client takes the bearer token from. */
  const CLIENT_TOKEN_COOKIE := "proyecto1sa-user-token"

  const COOKIE_SEPARATOR := "; "

  /** `cookie.split('=')`'s first piece. */
  function CookieKey(cookie: string): string {
    Split(cookie, "=")[0]
  }

  /** What `decodeURIComponent` receives for a cookie: its second piece
      when there is an `=`, otherwise `undefined`, which it renders as the
      text "undefined". */
  function CookieRawValue(cookie: string): string {
    var parts := Split(cookie, "=");
    if |parts| > 1 then parts[1] else "undefined"
  }

  /** `getCookie(name)`: `None` without a document; otherwise the decoded
      value of the first `k=v` pair of `document.cookie` whose key is `name`,
      or `None` when no key matches. */
  method GetCookie(document: Option<string>, name: string, decode: string -> string) returns (r: Option<string>)
    ensures document.None? ==> r.None?
    ensures document.Some? ==>
      var cookies := Split(document.value, COOKIE_SEPARATOR);
      && (r.Some? <==> exists i :: 0 <= i < |cookies| && CookieKey(cookies[i]) == name)
      && (r.Some? ==> exists i :: 0 <= i < |cookies| && CookieKey(cookies[i]) == name
                        && (forall j :: 0 <= j < i ==> CookieKey(cookies[j]) != name)
                        && r.value == decode(CookieRawValue(cookies[i])))
  {
    if document.None? {
      return None;
    }
    var cookies := Split(document.value, COOKIE_SEPARATOR);
    var i := 0;
    while i < |cookies|
      invariant 0 <= i <= |cookies|
      invariant forall j :: 0 <= j < i ==> CookieKey(cookies[j]) != name
    {
      var parts := Split(cookies[i], "=");
      var key := parts[0];
      if key == name {
        var value := if |parts| > 1 then parts[1] else "undefined";
        assert CookieKey(cookies[i]) == name && value == CookieRawValue(cookies[i]);
        r := Some(decode(value));
        assert cookies == Split(document.value, COOKIE_SEPARATOR);
        return;
      }
      i := i + 1;
    }
    return None;
  }

  /** `userAuth ? `Bearer ${userAuth}` : ''`. */
  function AuthorizationHeader(userAuth: Option<string>): (h: string)
    ensures h == "" <==> !Truthy(userAuth)
    ensures Truthy(userAuth) ==> StartsWith(h, "Bearer ") && h[|"Bearer "|..] == userAuth.value
  {
    if Truthy(userAuth) then "Bearer " + userAuth.value else ""
  }

  /** `onRequest`: the Authorization header every request carries, from the
      client's token cookie. */
  method RequestAuthorization(document: Option<string>, decode: string -> string) returns (h: string)
    ensures document.None? ==> h == ""
    ensures document.Some? ==>
      var cookies := Split(document.value, COOKIE_SEPARATOR);
      && ((forall i :: 0 <= i < |cookies| ==> CookieKey(cookies[i]) != CLIENT_TOKEN_COOKIE) ==> h == "")
      && (h != "" ==> exists i :: 0 <= i < |cookies| && CookieKey(cookies[i]) == CLIENT_TOKEN_COOKIE
                        && (forall j :: 0 <= j < i ==> CookieKey(cookies[j]) != CLIENT_TOKEN_COOKIE)
                        && h == "Bearer " + decode(CookieRawValue(cookies[i])))
      && (forall i ::
            (0 <= i < |cookies| && CookieKey(cookies[i]) == CLIENT_TOKEN_COOKIE
             && (forall j :: 0 <= j < i ==> CookieKey(cookies[j]) != CLIENT_TOKEN_COOKIE))
            ==> h == AuthorizationHeader(Some(decode(CookieRawValue(cookies[i])))))
  {
    var userAuth := GetCookie(document, CLIENT_TOKEN_COOKIE, decode);
    h := AuthorizationHeader(userAuth);
  }

  const DEFAULT_ERROR := "Ha ocurrido un error"

  /** The error the client raises: the HTTP status when there was a
      response, and a message. */
  datatype ApiError = ApiError(statusCode: Option<int>, message: string)

  /** `errorData?.message || 'Ha ocurrido un error'`: never empty. */
  function ErrorMessage(bodyMessage: Option<string>): (m: string)
    ensures m != ""
    ensures Truthy(bodyMessage) ==> m == bodyMessage.value
    ensures !Truthy(bodyMessage) ==> m == DEFAULT_ERROR
  {
    Or(bodyMessage, DEFAULT_ERROR)
  }

  /** `onResponseError`: the status of the response and the message of its body. */
  function ResponseError(status: int, bodyMessage: Option<string>): (e: ApiError)
    ensures e.statusCode == Some(status) && e.message != ""
    ensures Truthy(bodyMessage) ==> e.message == bodyMessage.value
    ensures !Truthy(bodyMessage) ==> e.message == DEFAULT_ERROR
  {
    ApiError(Some(status), ErrorMessage(bodyMessage))
  }

  /** `onRequestError`: no status, the default message. */
  function RequestError(): (e: ApiError)
    ensures e.statusCode.None? && e.message == DEFAULT_ERROR
  {
    ApiError(None, DEFAULT_ERROR)
  }

  // ---- genParams ----

  /** A property value of the object given to `genParams`. */
  datatype ParamValue = Null | Undefined | Str(s: string) | Int(i: int) | Bool(b: bool)

  /** The object's own entries, in `Object.entries` order. */
  type Entry = (string, ParamValue)

  /** `value !== null && value !== undefined && value !== ""`. */
  predicate Kept(v: ParamValue) {
    v != Null && v != Undefined && v != Str("")
  }

  /** `String(value)`. */
  function Render(v: ParamValue): string {
    match v
    case Null => "null"
    case Undefined => "undefined"
    case Str(s) => s
    case Int(i) => IntToString(i)
    case Bool(b) => if b then "true" else "false"
  }

  /** The pairs appended to the `URLSearchParams`, in entry order. */
  function KeptPairs(entries: seq<Entry>): (pairs: seq<(string, string)>)
    ensures |pairs| <= |entries|
    ensures forall k :: 0 <= k < |pairs| ==> pairs[k].1 != ""
  {
    if |entries| == 0 then []
    else
      var last := entries[|entries| - 1];
      KeptPairs(entries[..|entries| - 1]) + (if Kept(last.1) then [(last.0, Render(last.1))] else [])
  }

  /** `URLSearchParams.toString()`, the application/x-www-form-urlencoded
      serializer of section 5.2 of the WHATWG URL Standard: each name and
      value percent-encoded (`encode`), joined by `=`, pairs joined by `&`. */
  function Serialize(pairs: seq<(string, string)>, encode: string -> string): (s: string)
    ensures |pairs| > 0 ==> |s| >= 2 * |pairs| - 1
  {
    if |pairs| == 0 then ""
    else
      var p := encode(pairs[0].0) + "=" + encode(pairs[0].1);
      if |pairs| == 1 then p else p + "&" + Serialize(pairs[1..], encode)
  }

  /** The result of `genParams`: "" for a falsy argument (`None`) or when no
      pair is kept, otherwise "?" and the serialised pairs. */
  function QueryOf(objectParams: Option<seq<Entry>>, encode: string -> string): (q: string)
    ensures objectParams.None? ==> q == ""
    ensures q == "" || (|q| > 1 && q[0] == '?')
  {
    if objectParams.None? then ""
    else
      var query := Serialize(KeptPairs(objectParams.value), encode);
      if query != "" then "?" + query else ""
  }

  /** `genParams`: filters the entries while appending them to the
      `URLSearchParams`, then serialises. */
  method GenParams(objectParams: Option<seq<Entry>>, encode: string -> string) returns (r: string)
    ensures r == QueryOf(objectParams, encode)
  {
    if objectParams.None? {
      return "";
    }
    var entries := objectParams.value;
    var params: seq<(string, string)> := [];
    var i := 0;
    while i < |entries|
      invariant 0 <= i <= |entries|
      invariant params == KeptPairs(entries[..i])
    {
      var (key, value) := entries[i];
      assert entries[..i + 1][..i] == entries[..i];
      if Kept(value) {
        params := params + [(key, Render(value))];
      }
      i := i + 1;
    }
    assert entries[..|entries|] == entries;
    var query := Serialize(params, encode);
    r := if query != "" then "?" + query else "";
  }

  /** Filtering distributes over concatenation, so the kept pairs keep the
      entries' relative order. */
  lemma {:induction false} KeptPairsAppend(a: seq<Entry>, b: seq<Entry>)
    ensures KeptPairs(a + b) == KeptPairs(a) + KeptPairs(b)
    decreases |b|
  {
    if |b| == 0 {
      assert a + b == a;
    } else {
      var b' := b[..|b| - 1];
      assert (a + b)[..|a + b| - 1] == a + b';
      assert (a + b)[|a + b| - 1] == b[|b| - 1];
      KeptPairsAppend(a, b');
    }
  }

  /** One entry is kept — as its key and `String(value)` — exactly when its
      value is not null, undefined or "" (so 0 and false are kept). */
  lemma KeptPairsSingle(key: string, v: ParamValue)
    ensures KeptPairs([(key, v)]) == if Kept(v) then [(key, Render(v))] else []
    ensures Kept(Int(0)) && Kept(Bool(false))
  {
    assert [(key, v)][..0] == [];
  }

  /** A kept pair is an entry with a kept value, rendered. */
  lemma {:induction false} KeptPairsMembers(entries: seq<Entry>, p: (string, string))
    ensures p in KeptPairs(entries) <==> exists e :: e in entries && Kept(e.1) && p == (e.0, Render(e.1))
    decreases |entries|
  {
    if |entries| > 0 {
      var init := entries[..|entries| - 1];
      var last := entries[|entries| - 1];
      KeptPairsMembers(init, p);
      assert entries == init + [last];
      forall e | e in entries ensures e in init || e == last { }
    }
  }

  /** The serialisation is empty exactly when there is no pair, since every
      pair contributes an `=`. */
  lemma SerializeEmpty(pairs: seq<(string, string)>, encode: string -> string)
    ensures (Serialize(pairs, encode) == "") <==> |pairs| == 0
  {
    if |pairs| > 0 {
      var p := encode(pairs[0].0) + "=" + encode(pairs[0].1);
      assert p != "";
    }
  }

  /** `genParams` is "" exactly when nothing is kept, and otherwise "?"
      followed by the serialised kept pairs. */
  lemma QueryShape(objectParams: Option<seq<Entry>>, encode: string -> string)
    ensures objectParams.None? ==> QueryOf(objectParams, encode) == ""
    ensures objectParams.Some? ==>
      var pairs := KeptPairs(objectParams.value);
      && (QueryOf(objectParams, encode) == "" <==> |pairs| == 0)
      && (|pairs| > 0 ==> QueryOf(objectParams, encode) == "?" + Serialize(pairs, encode))
  {
    if objectParams.Some? {
      SerializeEmpty(KeptPairs(objectParams.value), encode);
    }
  }

  /** `genParams({a: 1, b: null, c: ""})` is "?a=1" (these names and values
      need no percent-encoding). */
  lemma QueryExample(encode: string -> string)
    requires forall s :: encode(s) == s
    ensures QueryOf(Some([("a", Int(1)), ("b", Null), ("c", Str(""))]), encode) == "?a=1"
  {
    var es := [("a", Int(1)), ("b", Null), ("c", Str(""))];
    assert NatToString(1) == "1" by { assert DigitChar(1) == '1'; }
    assert Render(Int(1)) == "1";
    assert KeptPairs([("a", Int(1))]) == [("a", "1")] by {
      assert [("a", Int(1))][..0] == [];
    }
    assert KeptPairs(es[..2]) == [("a", "1")] by {
      assert es[..2][..1] == [("a", Int(1))];
    }
    assert KeptPairs(es) == [("a", "1")];
    assert Serialize([("a", "1")], encode) == "a=1";
  }
}
