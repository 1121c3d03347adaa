/** What the ingester sees of the HTTP client: the outcome of one request
    attempt, the trace of requests and sleeps a retry loop performs, and the
    pure pieces every draft builds around a request (the Bearer header, the
    client-credentials form, URL resolution). */
module Http {
  import opened Py
  import opened Json

  /** The body of a response, as `response.json()` sees it. */
  datatype Body = Decodes(json: Json) | Undecodable

  /** One call to `requests.get` or `requests.post`: either the client raised a
      RequestException itself (connection error, timeout, invalid URL) or the
      server answered with a status code and a body. */
  datatype Attempt = Raised | Answered(status: int, body: Body)

  /** `response.raise_for_status()` raises for every 4xx and 5xx status, so an
      attempt fails at the `requests` layer exactly when this holds. */
  predicate RequestFails(a: Attempt) {
    a.Raised? || 400 <= a.status < 600
  }

  /** The externally visible effects of a retry loop, in order: a GET with its
      headers and query parameters, a POST with its form body, a sleep. */
  datatype Event =
    | Get(url: string, headers: map<string, string>, params: map<string, Json>)
    | Post(url: string, form: seq<(string, Json)>)
    | Sleep(seconds: int)

  /** Number of requests (GET or POST) in a trace. */
  function Requests(trace: seq<Event>): (n: nat)
    ensures n <= |trace|
  {
    if trace == [] then 0
    else (if trace[0].Sleep? then 0 else 1) + Requests(trace[1..])
  }

  /** The sleep durations in a trace, in order. */
  function Sleeps(trace: seq<Event>): (r: seq<int>)
    ensures |r| <= |trace|
  {
    if trace == [] then []
    else (if trace[0].Sleep? then [trace[0].seconds] else []) + Sleeps(trace[1..])
  }

  lemma {:induction false} RequestsAppend(a: seq<Event>, b: seq<Event>)
    ensures Requests(a + b) == Requests(a) + Requests(b)
  {
    if a == [] {
      assert a + b == b;
    } else {
      assert (a + b)[1..] == a[1..] + b;
      RequestsAppend(a[1..], b);
    }
  }

  lemma {:induction false} SleepsAppend(a: seq<Event>, b: seq<Event>)
    ensures Sleeps(a + b) == Sleeps(a) + Sleeps(b)
  {
    if a == [] {
      assert a + b == b;
    } else {
      assert (a + b)[0] == a[0];
      assert (a + b)[1..] == a[1..] + b;
      SleepsAppend(a[1..], b);
    }
  }

  /** The `Authorization` credential of the Bearer scheme (section 2.1 of
      RFC 6750), as every draft writes it: `f'Bearer {token}'`. */
  function Bearer(token: string): (v: string)
    ensures |v| == 7 + |token| && v[..7] == "Bearer " && v[7..] == token
  {
    "Bearer " + token
  }

  /** The header dict `{'Authorization': f'Bearer {token}'}`. */
  function AuthorizationHeader(token: string): (h: map<string, string>)
    ensures h.Keys == {"Authorization"} && h["Authorization"] == Bearer(token)
  {
    map["Authorization" := Bearer(token)]
  }

  /** The token request's form body, the client-credentials grant of section
      4.4.2 of RFC 6749, in the order the drafts build the dict. */
  function ClientCredentialsForm(clientId: Json, clientSecret: Json): (form: seq<(string, Json)>)
    ensures |form| == 3 && form[0] == ("grant_type", JStr("client_credentials"))
    ensures form[1] == ("client_id", clientId) && form[2] == ("client_secret", clientSecret)
  {
    [("grant_type", JStr("client_credentials")), ("client_id", clientId), ("client_secret", clientSecret)]
  }

  /** The form holds the grant type and the two credentials, in that order. */
  lemma ClientCredentialsFormFields(clientId: Json, clientSecret: Json)
    ensures var form := ClientCredentialsForm(clientId, clientSecret);
            Keys(form) == ["grant_type", "client_id", "client_secret"]
            && Lookup(form, "grant_type") == Some(JStr("client_credentials"))
            && Lookup(form, "client_id") == Some(clientId) && Lookup(form, "client_secret") == Some(clientSecret)
  {
  }

  // ---------------------------------------------------------------------------
  // urljoin(base, segment), reference resolution (section 5.2 of RFC 3986)
  // for a reference that is one relative path segment.

  /** A reference that is a single relative path segment: no scheme, no
      authority, no query or fragment, not a dot segment. */
  predicate SimpleSegment(ref: string) {
    |ref| > 0 && ref != "." && ref != ".."
    && forall i :: 0 <= i < |ref| ==> ref[i] !in "/?#:" && ref[i] > ' '
  }

  /** Index of the first occurrence of `c` in `s` at or after `from`, or `|s|`. */
  function FindFrom(s: string, c: char, from: nat): (i: nat)
    requires from <= |s|
    ensures from <= i <= |s|
    ensures i < |s| ==> s[i] == c
    ensures forall k :: from <= k < i ==> s[k] != c
    decreases |s| - from
  {
    if from == |s| || s[from] == c then from else FindFrom(s, c, from + 1)
  }

  lemma {:induction false} FindFromFirst(s: string, c: char, from: nat, i: nat)
    requires from <= i <= |s|
    requires forall k :: from <= k < i ==> s[k] != c
    requires i == |s| || s[i] == c
    ensures FindFrom(s, c, from) == i
    decreases i - from
  {
    if from < i {
      FindFromFirst(s, c, from + 1, i);
    }
  }

  /** Index of the first `?` or `#`: where the base's query or fragment begins. */
  function QueryStart(s: string): (i: nat)
    ensures i <= |s|
    ensures forall k :: 0 <= k < i ==> s[k] != '?' && s[k] != '#'
  {
    var q := FindFrom(s, '?', 0);
    var f := FindFrom(s, '#', 0);
    if q < f then q else f
  }

  /** Index just after the first "://", if the string has one. */
  function AuthorityStart(s: string): (r: Option<nat>)
    ensures r.Some? ==> 3 <= r.value <= |s| && s[r.value - 3..r.value] == "://"
  {
    AuthorityStartFrom(s, 0)
  }

  function AuthorityStartFrom(s: string, from: nat): (r: Option<nat>)
    requires from <= |s|
    ensures r.Some? ==> from + 3 <= r.value <= |s| && s[r.value - 3..r.value] == "://"
    decreases |s| - from
  {
    if from + 3 > |s| then None
    else if s[from..from + 3] == "://" then Some(from + 3)
    else AuthorityStartFrom(s, from + 1)
  }

  /** Where the base's path begins: after `scheme://authority`, or at 0 for a
      base without an authority. */
  function PathStart(core: string): (p: nat)
    ensures p <= |core|
  {
    match AuthorityStart(core)
    case None => 0
    case Some(a) => FindFrom(core, '/', a)
  }

  /** Index of the last `/` in `s[from..]`, if any. */
  function LastSlash(s: string, from: nat): (r: Option<nat>)
    requires from <= |s|
    ensures r.Some? ==> from <= r.value < |s| && s[r.value] == '/'
    ensures r.Some? ==> forall k :: r.value < k < |s| ==> s[k] != '/'
    ensures r.None? ==> forall k :: from <= k < |s| ==> s[k] != '/'
    decreases |s| - from
  {
    if from == |s| then None
    else match LastSlash(s, from + 1)
      case Some(k) => Some(k)
      case None => if s[from] == '/' then Some(from) else None
  }

  /** `urljoin(base, segment)`: the base without its query and fragment, its
      path cut after the last `/` (RFC 3986 section 5.2.3, "merge"), then the
      segment. A base with an authority and an empty path gets the path "/". */
  function UrlJoin(base: string, segment: string): (url: string)
    requires SimpleSegment(segment)
    ensures |url| >= |segment| && url[|url| - |segment|..] == segment
  {
    var core := base[..QueryStart(base)];
    var p := PathStart(core);
    match LastSlash(core, p)
    case Some(k) => core[..k + 1] + segment
    case None =>
      if AuthorityStart(core).Some? then core + "/" + segment else segment
  }

  /** `urljoin(base, ref)` for a non-empty string base and a reference taken
      from configuration: a false reference leaves the base as it is, a
      string is resolved, and any other value cannot be mixed with a string. */
  function UrlJoinValue(base: string, ref: Json): (r: Result<string>)
    requires base != ""
    requires ref.JStr? && ref.s != "" ==> SimpleSegment(ref.s)
    ensures r.Err? <==> Truthy(ref) && !ref.JStr?
    ensures r.Err? ==> r.exc == TypeError
    ensures !Truthy(ref) ==> r == Ok(base)
    ensures Truthy(ref) && ref.JStr? ==> r == Ok(UrlJoin(base, ref.s))
  {
    if !Truthy(ref) then Ok(base)
    else if ref.JStr? then Ok(UrlJoin(base, ref.s))
    else Err(TypeError)
  }

  /** Whether `urljoin(base, ref)` raises TypeError: an empty base hands `ref`
      back and a false `ref` hands the base back, so only a true non-string
      `ref` beside a string base meets the TypeError for mixing str and
      non-str arguments. The ValueError `urlsplit` raises for a malformed
      bracketed host is not part of this model. */
  predicate UrlJoinRaises(base: string, ref: Json)
    ensures UrlJoinRaises(base, ref) ==> base != "" && !ref.JStr? && UrlJoinValue(base, ref) == Err(TypeError)
    ensures base != "" && !UrlJoinRaises(base, ref) && (ref.JStr? && ref.s != "" ==> SimpleSegment(ref.s)) ==>
              UrlJoinValue(base, ref).Ok?
  {
    base != "" && Truthy(ref) && !ref.JStr?
  }

  /** Where `UrlJoinValue` is defined it raises exactly when `urljoin` does. */
  lemma UrlJoinRaisesAgrees(base: string, ref: Json)
    requires base != ""
    requires ref.JStr? && ref.s != "" ==> SimpleSegment(ref.s)
    ensures UrlJoinRaises(base, ref) <==> UrlJoinValue(base, ref).Err?
  {
  }

  /** A base whose path ends in `/` is extended by the segment. */
  lemma UrlJoinDirectoryBase(base: string, segment: string)
    requires SimpleSegment(segment)
    requires QueryStart(base) == |base|
    requires |base| > PathStart(base) && base[|base| - 1] == '/'
    ensures UrlJoin(base, segment) == base + segment
  {
    var core := base[..QueryStart(base)];
    assert core == base;
    var l := LastSlash(core, PathStart(core));
    assert l == Some(|base| - 1);
  }

  lemma {:induction false} AuthorityStartAt(s: string, from: nat, i: nat)
    requires from <= i && i + 3 <= |s| && s[i..i + 3] == "://"
    requires forall k :: from <= k < i ==> s[k] != ':'
    ensures AuthorityStartFrom(s, from) == Some(i + 3)
    decreases i - from
  {
    if from < i {
      assert s[from..from + 3][0] == s[from];
      AuthorityStartAt(s, from + 1, i);
    }
  }

  const PetfinderHost := "https://api.petfinder.com"

  lemma PetfinderHostPathStart(path: string)
    requires |path| > 0 && path[0] == '/'
    requires forall k :: 0 <= k < |path| ==> path[k] != '?' && path[k] != '#'
    ensures QueryStart(PetfinderHost + path) == |PetfinderHost + path|
    ensures AuthorityStart(PetfinderHost + path) == Some(8)
    ensures PathStart(PetfinderHost + path) == 25
  {
    var s := PetfinderHost + path;
    assert forall k :: 0 <= k < 25 ==> s[k] == PetfinderHost[k];
    FindFromFirst(s, '?', 0, |s|);
    FindFromFirst(s, '#', 0, |s|);
    assert s[5] == ':' && s[6] == '/' && s[7] == '/';
    assert s[5..8] == "://";
    AuthorityStartAt(s, 0, 5);
    FindFromFirst(s, '/', 8, 25);
  }

  /** The configured Petfinder base, with its trailing `/`: the category is appended. */
  lemma UrlJoinPetfinderDirectory()
    ensures UrlJoin(PetfinderHost + "/v2/", "animals") == PetfinderHost + "/v2/animals"
  {
    PetfinderHostPathStart("/v2/");
    UrlJoinDirectoryBase(PetfinderHost + "/v2/", "animals");
  }

  /** Without the trailing `/` the base's last segment is replaced. */
  lemma UrlJoinPetfinderFile()
    ensures UrlJoin(PetfinderHost + "/v2", "animals") == PetfinderHost + "/animals"
  {
    var b := PetfinderHost + "/v2";
    PetfinderHostPathStart("/v2");
    assert b[..|b|] == b;
    assert LastSlash(b, 25) == Some(25);
    assert b[..26] == PetfinderHost + "/";
  }

  // ---------------------------------------------------------------------------
  // The Petfinder endpoint names.

  /** `str.lower` on one character, for ASCII letters. No other character
      lowers to an ASCII letter of "animals" or "organizations", so the
      category tests below are exact. */
  function LowerChar(c: char): char {
    if 'A' <= c <= 'Z' then ((c as int) + 32) as char else c
  }

  /** `s.lower()`, character by character. */
  function Lower(s: string): (r: string)
    ensures |r| == |s| && forall i :: 0 <= i < |s| ==> r[i] == LowerChar(s[i])
  {
    seq(|s|, i requires 0 <= i < |s| => LowerChar(s[i]))
  }

  /** `s.lower() in ['animals', 'organizations']`. */
  predicate ValidCategory(s: string) {
    Lower(s) == "animals" || Lower(s) == "organizations"
  }

  /** A valid category, in whatever case it is written, is made of letters
      only, so it and its lower-case form are simple path segments. */
  lemma ValidCategorySegment(s: string)
    requires ValidCategory(s)
    ensures SimpleSegment(s) && SimpleSegment(Lower(s))
    ensures forall i :: 0 <= i < |s| ==> 'A' <= s[i] <= 'Z' || 'a' <= s[i] <= 'z'
  {
    var l := Lower(s);
    assert forall i :: 0 <= i < |l| ==> 'a' <= l[i] <= 'z';
    assert forall i :: 0 <= i < |s| ==> 'A' <= s[i] <= 'Z' || 'a' <= s[i] <= 'z' by {
      forall i | 0 <= i < |s|
        ensures 'A' <= s[i] <= 'Z' || 'a' <= s[i] <= 'z'
      {
        assert l[i] == LowerChar(s[i]);
      }
    }
  }

  /** Lowering twice is lowering once. */
  lemma LowerIdempotent(s: string)
    ensures Lower(Lower(s)) == Lower(s)
  {
  }

  /** The test ignores case and nothing else. */
  lemma ValidCategoryExamples()
    ensures ValidCategory("Animals") && ValidCategory("ORGANIZATIONS") && ValidCategory("animals")
    ensures !ValidCategory("animal") && !ValidCategory("dogs") && !ValidCategory("")
  {
    assert Lower("Animals") == "animals";
    assert Lower("ORGANIZATIONS") == "organizations";
    assert Lower("animals") == "animals";
    assert |Lower("animal")| == 6;
    assert |Lower("dogs")| == 4;
    assert Lower("") == "";
  }
}
