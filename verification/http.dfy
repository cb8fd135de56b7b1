/**
 The HTTP traffic the scripts generate, as data: each request the load-testing
 client sends, in order. The client itself, cookies and responses are not
 modelled; what a response contributes (a status code, a cookie value, a
 decoded JSON body) is passed in as an argument by the callers.
 */
module Http {
  import opened PyBase

  datatype Method = Get | Post | Patch

  /**
   Where a request goes: a path on the host under test, or `urljoin(base, path)`
   for another host, left uninterpreted.
   */
  datatype Target = Path(path: string) | Joined(base: string, path: string)

  /**
   One request sent through the load-testing client. `statsName` is the `name=`
   the statistics group it under (`None`: the URL itself); header values may be
   Python `None` (a missing CSRF cookie); `body` is the form data or JSON body.
   */
  datatype Request = Request(
    verb: Method,
    target: Target,
    statsName: Option<string>,
    headers: map<string, Option<string>>,
    body: Value)

  /** A body-less GET of a path with no label and no headers. */
  function GetPath(path: string): (r: Request)
    ensures r.verb == Get && r.target == Path(path) && r.body == Null
  {
    Request(Get, Path(path), None, map[], Null)
  }

  /** The bodies of the requests in `rs` that use method `m`, in sending order. */
  function BodiesOf(rs: seq<Request>, m: Method): (bodies: seq<Value>)
    ensures |bodies| <= |rs|
  {
    if rs == [] then []
    else (if rs[0].verb == m then [rs[0].body] else []) + BodiesOf(rs[1..], m)
  }

  /** Filtering by method distributes over concatenated request logs. */
  lemma {:induction false} BodiesOfAppend(a: seq<Request>, b: seq<Request>, m: Method)
    ensures BodiesOf(a + b, m) == BodiesOf(a, m) + BodiesOf(b, m)
  {
    if a == [] {
      assert a + b == b;
    } else {
      var head := if a[0].verb == m then [a[0].body] else [];
      assert (a + b)[1..] == a[1..] + b;
      BodiesOfAppend(a[1..], b, m);
      ConcatAssoc(head, BodiesOf(a[1..], m), BodiesOf(b, m));
    }
  }

  /**
   Filtering a log of four consecutive parts where the first and third contribute
   nothing for `m`.
   */
  lemma BodiesOfInterleaved(a: seq<Request>, b: seq<Request>, c: seq<Request>, d: seq<Request>, m: Method)
    requires BodiesOf(a, m) == [] && BodiesOf(c, m) == []
    ensures BodiesOf(a + b + c + d, m) == BodiesOf(b, m) + BodiesOf(d, m)
  {
    BodiesOfAppend(a, b, m);
    BodiesOfAppend(a + b, c, m);
    BodiesOfAppend(a + b + c, d, m);
  }

  /** A log framed by parts that contribute nothing for `m` contributes what its middle does. */
  lemma BodiesOfFramed(a: seq<Request>, b: seq<Request>, c: seq<Request>, m: Method)
    requires BodiesOf(a, m) == [] && BodiesOf(c, m) == []
    ensures BodiesOf(a + b + c, m) == BodiesOf(b, m)
  {
    BodiesOfAppend(a, b, m);
    BodiesOfAppend(a + b, c, m);
  }

  /** A log with no request of method `m` contributes no bodies for `m`. */
  lemma {:induction false} BodiesOfNone(rs: seq<Request>, m: Method)
    requires forall i :: 0 <= i < |rs| ==> rs[i].verb != m
    ensures BodiesOf(rs, m) == []
  {
    if rs != [] {
      BodiesOfNone(rs[1..], m);
    }
  }

  /** What a task did: the requests it sent, in order, and the exception that stopped it, if any. */
  datatype Trace = Trace(sent: seq<Request>, error: Option<Error>)

  /** The e-mail address both edX login forms derive from a username. */
  function LoginEmail(username: string): (email: string)
    ensures |email| == |username| + 12 && email[..|username|] == username
    ensures email[|username|..] == "@example.com"
  {
    username + "@example.com"
  }

  /** The edX login form body: e-mail, password and `remember: 'false'`. */
  function LoginForm(username: string, password: string): (form: Value)
    ensures form.Dict? && form.fields.Keys == {"email", "password", "remember"}
    ensures form.fields["email"] == Str(LoginEmail(username))
    ensures form.fields["password"] == Str(password)
    ensures form.fields["remember"] == Str("false")
  {
    Dict(map["email" := Str(LoginEmail(username)), "password" := Str(password), "remember" := Str("false")])
  }

  /** The header carrying a CSRF token, which may be missing (`None`). */
  function CsrfHeader(token: Option<string>): (h: map<string, Option<string>>)
    ensures h.Keys == {"X-CSRFToken"} && h["X-CSRFToken"] == token
  {
    map["X-CSRFToken" := token]
  }
}
