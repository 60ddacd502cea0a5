/** Where a conversation is stored on disk: `<base>/sessions/<user_id>`, joined the
    way POSIX `pathlib` joins paths. */
module SessionPaths {

  /** An absolute POSIX path, given by its components (`/a/b` is `Path(["a", "b"])`). */
  datatype Path = Path(parts: seq<string>)

  /** What the file session store is opened with: a storage directory and the session id. */
  datatype SessionHandle = SessionHandle(storageDir: Path, sessionId: string)

  /** `s` split at every '/', keeping empty pieces: "a//b" gives ["a", "", "b"]. */
  function Segments(s: string): (r: seq<string>)
    ensures |r| >= 1
  {
    if s == [] then [""]
    else
      var rest := Segments(s[1..]);
      if s[0] == '/' then [""] + rest else [[s[0]] + rest[0]] + rest[1..]
  }

  /** Drops the pieces `pathlib` ignores: empty ones and ".". */
  function Significant(segments: seq<string>): (r: seq<string>)
  {
    if segments == [] then []
    else
      (if segments[0] == "" || segments[0] == "." then [] else [segments[0]])
      + Significant(segments[1..])
  }

  function Components(s: string): (r: seq<string>) {
    Significant(Segments(s))
  }

  /** `p / s`: an absolute `s` replaces `p`, a relative one is appended component by component. */
  function Join(p: Path, s: string): (r: Path) {
    if s != [] && s[0] == '/' then Path(Components(s)) else Path(p.parts + Components(s))
  }

  /** A name that `pathlib` keeps as exactly one component. */
  predicate PlainName(s: string) {
    s != "" && s != "." && '/' !in s
  }

  lemma {:induction false} SegmentsWithoutSlash(s: string)
    requires '/' !in s
    ensures Segments(s) == [s]
  {
    if s != [] {
      assert '/' !in s[1..] by {
        forall c | c in s[1..] ensures c != '/' { assert c in s; }
      }
      SegmentsWithoutSlash(s[1..]);
      assert s[0] != '/';
      assert [s[0]] + s[1..] == s;
    }
  }

  lemma JoinPlainName(p: Path, s: string)
    requires PlainName(s)
    ensures Join(p, s) == Path(p.parts + [s])
  {
    SegmentsWithoutSlash(s);
    assert Significant([s]) == [s] + Significant([]);
  }

  function SessionDirectory(base: Path, userId: string): (d: Path) {
    Join(Join(base, "sessions"), userId)
  }

  /** `create_session_manager`: the store lives in the user's directory under `sessions`;
      the session id selects the conversation inside it and does not change the directory. */
  function OpenSession(base: Path, userId: string, sessionId: string): (h: SessionHandle)
    ensures h.sessionId == sessionId
    ensures PlainName(userId) ==> h.storageDir == Path(base.parts + ["sessions", userId])
    ensures userId == "" ==> h.storageDir == Path(base.parts + ["sessions"])
  {
    JoinPlainName(base, "sessions");
    if PlainName(userId) then
      JoinPlainName(Path(base.parts + ["sessions"]), userId);
      SessionHandle(SessionDirectory(base, userId), sessionId)
    else
      SessionHandle(SessionDirectory(base, userId), sessionId)
  }

  /** Two users with distinct plain ids never share a session directory. */
  lemma SessionDirectoriesDistinct(base: Path, u1: string, u2: string, s1: string, s2: string)
    requires PlainName(u1) && PlainName(u2) && u1 != u2
    ensures OpenSession(base, u1, s1).storageDir != OpenSession(base, u2, s2).storageDir
  {
    var d1 := OpenSession(base, u1, s1).storageDir;
    assert d1.parts[|base.parts| + 1] == u1;
  }

  /** A user id starting with '/' is an absolute path: the store leaves the base directory. */
  lemma AbsoluteUserIdEscapes(base: Path, rest: string, sessionId: string)
    ensures OpenSession(base, "/" + rest, sessionId).storageDir == Path(Components(rest))
  {
  }
}
