/**
 * The key lookup server. It answers `GET /key/<key>` with the JSON value
 * stored in the file `<key>` of the directory where the config map is
 * mounted. The directory is re-read on every request, so a response is a
 * function of the directory's contents at that moment and of the request
 * path; the handler never changes the directory.
 */
module Server {
  import opened Wrappers
  import opened Json

  /** The environment variables the server reads its directory and port from. */
  const DirVariable: string := "CONFIG_SERVER_DIR"
  const PortVariable: string := "CONFIG_SERVER_PORT"

  /** An entry of the mounted directory: a file and its text, or a directory. */
  datatype Entry = File(text: string) | Subdirectory

  /** The entries directly under the configured directory, by name. */
  type Directory = map<string, Entry>

  /** The answer to a request: a body with status 200, or an error status with its reason phrase. */
  datatype Response = Success(body: string) | Failure(status: int, reason: string) {
    function Status(): int {
      if Success? then 200 else status
    }
  }

  // ---------------------------------------------------------------------------
  // Routing
  // ---------------------------------------------------------------------------

  const RoutePrefix: string := "/key/"

  /** A character the key group of the route accepts: a digit, a word character, `.` or `-`. */
  predicate IsKeyChar(c: char) {
    IsDigit(c) || 'a' <= c <= 'z' || 'A' <= c <= 'Z' || c == '_' || c == '.' || c == '-'
  }

  predicate ValidKey(key: string) {
    |key| > 0 && forall i | 0 <= i < |key| :: IsKeyChar(key[i])
  }

  /**
   * The key a request path is routed with: the whole path must be `/key/`,
   * then one or more key characters, then an optional `/`.
   */
  function Route(path: string): (key: Option<string>)
    ensures key.Some? ==> ValidKey(key.value) && '/' !in key.value
  {
    if |path| < |RoutePrefix| || path[..|RoutePrefix|] != RoutePrefix then None
    else
      var rest := path[|RoutePrefix|..];
      var key := if rest != [] && rest[|rest| - 1] == '/' then rest[..|rest| - 1] else rest;
      if ValidKey(key) then Some(key) else None
  }

  /** The paths routed with `key` are exactly `/key/<key>` and `/key/<key>/`, for a valid key. */
  lemma RouteMatches(path: string, key: string)
    ensures Route(path) == Some(key) <==> ValidKey(key) && (path == RoutePrefix + key || path == RoutePrefix + key + "/")
  {
    var n := |RoutePrefix|;
    if ValidKey(key) && (path == RoutePrefix + key || path == RoutePrefix + key + "/") {
      assert path[..n] == RoutePrefix;
      assert key[|key| - 1] != '/';
      if path == RoutePrefix + key {
        assert path[n..] == key;
      } else {
        assert path[n..] == key + "/";
        assert (key + "/")[..|key|] == key;
      }
    }
    if Route(path) == Some(key) {
      var rest := path[n..];
      assert path == path[..n] + rest;
      if rest != [] && rest[|rest| - 1] == '/' {
        assert rest == key + "/";
      }
    }
  }

  // ---------------------------------------------------------------------------
  // Writing a value
  // ---------------------------------------------------------------------------

  /** Whether `</` occurs in `s`. */
  predicate HasCloseTag(s: string) {
    exists i | 0 <= i < |s| - 1 :: s[i] == '<' && s[i + 1] == '/'
  }

  /** Every `</` replaced by `<\/`, left to right, as the web framework does to the JSON it writes. */
  function EscapeCloseTags(s: string): string {
    if |s| < 2 then s
    else if s[0] == '<' && s[1] == '/' then "<\\/" + EscapeCloseTags(s[2..])
    else [s[0]] + EscapeCloseTags(s[1..])
  }

  /** Text without `</` is written as it is. */
  lemma {:induction false} EscapeWithoutCloseTag(s: string)
    requires !HasCloseTag(s)
    ensures EscapeCloseTags(s) == s
  {
    if |s| >= 2 {
      assert !(s[0] == '<' && s[1] == '/');
      assert !HasCloseTag(s[1..]) by {
        forall i | 0 <= i < |s[1..]| - 1
          ensures !(s[1..][i] == '<' && s[1..][i + 1] == '/')
        {
          assert s[1..][i] == s[i + 1] && s[1..][i + 1] == s[i + 2];
        }
      }
      EscapeWithoutCloseTag(s[1..]);
    }
  }

  /** Each `</` becomes `<\/`: the result holds no `</` at all. */
  lemma {:induction false} EscapeRemovesCloseTags(s: string)
    ensures !HasCloseTag(EscapeCloseTags(s))
  {
    if |s| >= 2 {
      var tail := if s[0] == '<' && s[1] == '/' then s[2..] else s[1..];
      var head := if s[0] == '<' && s[1] == '/' then "<\\/" else [s[0]];
      EscapeRemovesCloseTags(tail);
      var r := EscapeCloseTags(tail);
      assert EscapeCloseTags(s) == head + r;
      forall i | 0 <= i < |head + r| - 1
        ensures !((head + r)[i] == '<' && (head + r)[i + 1] == '/')
      {
        if i >= |head| {
          assert (head + r)[i] == r[i - |head|] && (head + r)[i + 1] == r[i + 1 - |head|];
        } else if i == |head| - 1 && head == [s[0]] && s[0] == '<' {
          assert r == EscapeCloseTags(s[1..]);
          assert s[1] != '/';
          assert r[0] == s[1] by { EscapeFirst(s[1..]); }
        } else if i == |head| - 1 && head == "<\\/" && r != [] && r[0] == '/' {
          assert (head + r)[i] == '/';
        }
      }
    } else {
      assert EscapeCloseTags(s) == s;
    }
  }

  /** Escaping never changes the first character. */
  lemma EscapeFirst(s: string)
    requires s != []
    ensures EscapeCloseTags(s) != [] && EscapeCloseTags(s)[0] == s[0]
  {
  }

  /**
   * What writing a parsed value produces: a JSON object is encoded, a
   * string is written as it is, and any other value is refused with an
   * internal error.
   */
  function Write(v: Json): Response {
    match v
    case Object(_) => Success(EscapeCloseTags(Enc(v)))
    case String(s) => Success(s)
    case _ => Failure(500, "Internal Server Error")
  }

  // ---------------------------------------------------------------------------
  // The handler
  // ---------------------------------------------------------------------------

  function NotValidJson(key: string): string {
    "Failed to load values for key '" + key + "': not valid JSON"
  }

  function KeyNotFound(key: string): string {
    "Key '" + key + "' not found"
  }

  /** The names that denote the configured directory itself and its parent. */
  predicate IsDotName(key: string) { key == "." || key == ".." }

  /**
   * The GET handler for `key`: open the entry `key` of the directory, parse
   * its text as JSON and write the value. Opening a directory is an error
   * the handler does not catch.
   */
  function Get(dir: Directory, key: string): Response {
    if IsDotName(key) then Failure(500, "Internal Server Error")
    else if key !in dir then Failure(404, KeyNotFound(key))
    else match dir[key]
      case Subdirectory => Failure(500, "Internal Server Error")
      case File(text) =>
        match Parse(text)
        case None => Failure(400, NotValidJson(key))
        case Some(v) => Write(v)
  }

  /** A request: routed to the handler, or answered 404 when no route matches. */
  function Serve(dir: Directory, path: string): Response {
    match Route(path)
    case None => Failure(404, "Not Found")
    case Some(key) => Get(dir, key)
  }

  /** Each status of the handler, and exactly when it is given. */
  lemma GetOutcomes(dir: Directory, key: string)
    ensures Get(dir, key).Status() == 404 <==> !IsDotName(key) && key !in dir
    ensures Get(dir, key).Status() == 400 <==>
              !IsDotName(key) && key in dir && dir[key].File? && Parse(dir[key].text).None?
    ensures Get(dir, key).Status() == 200 <==>
              && !IsDotName(key) && key in dir && dir[key].File? && Parse(dir[key].text).Some?
              && (Parse(dir[key].text).value.Object? || Parse(dir[key].text).value.String?)
    ensures Get(dir, key).Status() in {200, 400, 404, 500}
  {
  }

  /** The response depends on the directory only through the entry named `key`. */
  lemma GetReadsOneEntry(dir: Directory, other: Directory, key: string)
    requires key in dir <==> key in other
    requires key in dir ==> dir[key] == other[key]
    ensures Get(dir, key) == Get(other, key)
  {
  }

  /** A file written as the encoding of a value is served, under both of its paths, as that value is written. */
  lemma ServeStored(dir: Directory, key: string, v: Json)
    requires ValidKey(key) && !IsDotName(key)
    requires key in dir && dir[key] == File(Enc(v))
    ensures Serve(dir, RoutePrefix + key) == Write(v)
    ensures Serve(dir, RoutePrefix + key + "/") == Write(v)
  {
    RouteMatches(RoutePrefix + key, key);
    RouteMatches(RoutePrefix + key + "/", key);
    RoundTrip(v);
  }

  /**
   * A JSON object is served as its encoding with `</` escaped; the body
   * holds no `</`, and without one in the encoding it is the encoding
   * itself.
   */
  lemma ServeStoredObject(dir: Directory, key: string, v: Json)
    requires ValidKey(key) && !IsDotName(key)
    requires key in dir && dir[key] == File(Enc(v)) && v.Object?
    ensures Serve(dir, RoutePrefix + key) == Success(EscapeCloseTags(Enc(v)))
    ensures !HasCloseTag(Serve(dir, RoutePrefix + key).body)
    ensures !HasCloseTag(Enc(v)) ==> Serve(dir, RoutePrefix + key) == Success(Enc(v))
  {
    ServeStored(dir, key, v);
    EscapeRemovesCloseTags(Enc(v));
    if !HasCloseTag(Enc(v)) {
      EscapeWithoutCloseTag(Enc(v));
    }
  }

  /** Requests for the root, and for `/key/` with no key, are not routed. */
  lemma ServeUnrouted(dir: Directory)
    ensures Serve(dir, "/") == Failure(404, "Not Found")
    ensures Serve(dir, RoutePrefix) == Failure(404, "Not Found")
  {
  }

  // ---------------------------------------------------------------------------
  // The requests of the server's test suite
  // ---------------------------------------------------------------------------

  /** Lower-case letters only: characters that JSON writes without escaping and HTML without meaning. */
  predicate IsWord(s: string) {
    forall i | 0 <= i < |s| :: 'a' <= s[i] <= 'z'
  }

  /** A word is quoted as it is. */
  lemma QuoteWord(s: string)
    requires IsWord(s)
    ensures Quote(s) == "\"" + s + "\""
  {
    EscapePlain(s);
  }

  /** The encoding of a one-member object whose key and string value are words. */
  lemma EncodeWordObject(k: string, s: string)
    requires IsWord(k) && IsWord(s)
    ensures Enc(Object([Member(k, String(s))])) == "{\"" + k + "\": \"" + s + "\"}"
  {
    var member := Member(k, String(s));
    assert Enc(Object([member])) == "{" + EncMember(member) + "}" by {
      assert EncMembers([member]) == EncMember(member);
    }
    assert EncMember(member) == Quote(k) + ": " + Quote(s);
    QuoteWord(k);
    QuoteWord(s);
    BraceQuotes(k, s);
  }

  /** The characters around a one-member object's key and value, regrouped. */
  lemma BraceQuotes(k: string, s: string)
    ensures "{" + (("\"" + k + "\"") + ": " + ("\"" + s + "\"")) + "}" == "{\"" + k + "\": \"" + s + "\"}"
  {
  }

  /**
   * The test suite's request for a file holding the encoding of
   * `{"foo": "bar"}` (and of any such object with words for key and value)
   * is answered with that encoding.
   */
  lemma ServeWordObject(key: string, k: string, s: string)
    requires ValidKey(key) && !IsDotName(key)
    requires IsWord(k) && IsWord(s)
    ensures var body := "{\"" + k + "\": \"" + s + "\"}";
            Serve(map[key := File(body)], RoutePrefix + key) == Success(body)
  {
    var v := Object([Member(k, String(s))]);
    var body := "{\"" + k + "\": \"" + s + "\"}";
    EncodeWordObject(k, s);
    assert !HasCloseTag(body) by {
      forall i | 0 <= i < |body| - 1
        ensures body[i] != '<'
      {
        if 2 <= i < 2 + |k| {
          assert body[i] == k[i - 2];
        } else if 6 + |k| <= i < 6 + |k| + |s| {
          assert body[i] == s[i - 6 - |k|];
        }
      }
    }
    ServeStoredObject(map[key := File(body)], key, v);
  }

  /** A file that is not JSON is answered 400. */
  lemma ServeNotJson()
    ensures Serve(map["test" := File("something: not json")], "/key/test").Status() == 400
  {
    assert Route("/key/test") == Some("test") by {
      RouteMatches("/key/test", "test");
      assert RoutePrefix + "test" == "/key/test";
    }
  }

  /** A key with no file is answered 404. */
  lemma ServeMissing(dir: Directory)
    requires "not-found" !in dir
    ensures Serve(dir, "/key/not-found").Status() == 404
  {
    assert Route("/key/not-found") == Some("not-found") by {
      RouteMatches("/key/not-found", "not-found");
      assert RoutePrefix + "not-found" == "/key/not-found";
    }
  }
}
