/**
 How a repository is named: its path on disk, its clone URL, the smart-HTTP paths, the SSH command
 and its custom resource.  Strings stand for Go's byte strings, one character a byte.
 */
module RepoNames {
  import opened Options

  // --- slugs -----------------------------------------------------------------------

  predicate LowerAlnum(c: char) { 'a' <= c <= 'z' || '0' <= c <= '9' }

  /** `^[a-z0-9]([a-z0-9-]*[a-z0-9])?$` */
  predicate IsSlug(s: string) {
    && s != "" && LowerAlnum(s[0]) && LowerAlnum(s[|s| - 1])
    && forall i :: 0 <= i < |s| ==> LowerAlnum(s[i]) || s[i] == '-'
  }

  /** The class `[A-Za-z0-9_.-]` of the URL patterns. */
  predicate UrlChar(c: char) {
    LowerAlnum(c) || 'A' <= c <= 'Z' || c == '_' || c == '.' || c == '-'
  }

  predicate IsUrlName(s: string) {
    s != "" && forall i :: 0 <= i < |s| ==> UrlChar(s[i])
  }

  /** The characters of slugs and of URL names, by their ASCII codes. */
  lemma Alphabets(c: char)
    ensures LowerAlnum(c) <==> 97 <= c as int <= 122 || 48 <= c as int <= 57
    ensures UrlChar(c) <==> 97 <= c as int <= 122 || 65 <= c as int <= 90 || 48 <= c as int <= 57 || c as int in {95, 46, 45}
  {
  }

  predicate AllSlugChars(s: string) {
    forall i :: 0 <= i < |s| ==> LowerAlnum(s[i]) || s[i] == '-'
  }

  /** The pattern of slugs, read from left to right: one character, or two with any middle. */
  lemma SlugIff(first: char, middle: string, last: char)
    ensures IsSlug([first]) <==> LowerAlnum(first)
    ensures IsSlug([first] + middle + [last]) <==> LowerAlnum(first) && AllSlugChars(middle) && LowerAlnum(last)
    ensures !IsSlug("")
  {
    var s := [first] + middle + [last];
    assert s[|s| - 1] == last && s[1..|s| - 1] == middle;
    assert forall i :: 0 <= i < |middle| ==> middle[i] == s[i + 1];
  }

  predicate Free(s: string, c: char) {
    c !in s
  }

  lemma SlugIsUrlName(s: string)
    requires IsSlug(s)
    ensures IsUrlName(s)
  {
  }

  // --- splitting ---------------------------------------------------------------------

  /** Go's `strings.SplitN(s, sep, 2)` for a one-character separator. */
  function Cut(s: string, sep: char): Option<(string, string)> {
    if s == "" then None
    else if s[0] == sep then Some(("", s[1..]))
    else
      match Cut(s[1..], sep)
      case None => None
      case Some((left, right)) => Some(([s[0]] + left, right))
  }

  lemma {:induction false} CutSplits(left: string, sep: char, right: string)
    requires Free(left, sep)
    ensures Cut(left + [sep] + right, sep) == Some((left, right))
  {
    var s := left + [sep] + right;
    if left == "" {
      assert s[1..] == right;
    } else {
      assert s[1..] == left[1..] + [sep] + right;
      CutSplits(left[1..], sep, right);
      assert [left[0]] + left[1..] == left;
    }
  }

  lemma {:induction false} CutJoins(s: string, sep: char)
    ensures Cut(s, sep).Some? ==>
              var (left, right) := Cut(s, sep).value;
              s == left + [sep] + right && Free(left, sep)
  {
    if s != "" && s[0] != sep {
      CutJoins(s[1..], sep);
      if Cut(s[1..], sep).Some? {
        var (left, right) := Cut(s[1..], sep).value;
        assert s == [s[0]] + s[1..];
        assert s == ([s[0]] + left) + [sep] + right;
      }
    } else if s != "" {
      assert s == "" + [sep] + s[1..];
    }
  }

  /** A separator that neither left part contains splits in one place only. */
  lemma CutUnique(left: string, left': string, sep: char, right: string, right': string)
    requires Free(left, sep) && Free(left', sep) && left + [sep] + right == left' + [sep] + right'
    ensures left == left' && right == right'
  {
    CutSplits(left, sep, right);
    CutSplits(left', sep, right');
  }

  predicate EndsWith(s: string, suffix: string) {
    |suffix| <= |s| && s[|s| - |suffix|..] == suffix
  }

  function TrimSuffix(s: string, suffix: string): string {
    if EndsWith(s, suffix) then s[..|s| - |suffix|] else s
  }

  lemma TrimSuffixUndoes(s: string, suffix: string)
    ensures EndsWith(s + suffix, suffix) && TrimSuffix(s + suffix, suffix) == s
  {
    assert (s + suffix)[|s|..] == suffix;
    assert (s + suffix)[..|s|] == s;
  }

  // --- the directory -------------------------------------------------------------------

  function RootPrefix(root: string): string {
    if root == "" || EndsWith(root, "/") then root else root + "/"
  }

  /** `filepath.Join(root, owner, repo + ".git")` for a root that is already clean and an owner that is not "." or "..". */
  function RepoPath(root: string, owner: string, repo: string): string {
    RootPrefix(root) + (owner + "/" + (repo + ".git"))
  }

  /** What `os.RemoveAll(dir)` removes. */
  predicate Inside(dir: string, path: string) {
    path == dir || dir + "/" <= path
  }

  /** The directory is root, owner and name with ".git", joined by slashes. */
  lemma PathIs(root: string, owner: string, repo: string)
    ensures root != "" && root[|root| - 1] != '/' ==> RepoPath(root, owner, repo) == root + "/" + owner + "/" + repo + ".git"
    ensures RepoPath("/", owner, repo) == "/" + owner + "/" + repo + ".git"
    ensures RepoPath("", owner, repo) == owner + "/" + repo + ".git"
  {
    assert EndsWith("/", "/");
    if root != "" {
      assert root[|root| - 1..] == [root[|root| - 1]];
      assert EndsWith(root, "/") <==> root[|root| - 1] == '/';
    }
    assert RootPrefix(root) + (owner + "/" + (repo + ".git")) == RootPrefix(root) + owner + "/" + repo + ".git";
    assert "/" + (owner + "/" + (repo + ".git")) == "/" + owner + "/" + repo + ".git";
    assert "" + (owner + "/" + (repo + ".git")) == owner + "/" + repo + ".git";
  }

  lemma NameFree(s: string, suffix: string)
    requires IsUrlName(s) && Free(suffix, '/')
    ensures Free(s, '/') && Free(s + suffix, '/')
  {
  }

  lemma TailsApart(owner: string, repo: string, owner': string, repo': string, extra: string)
    requires IsUrlName(owner) && IsUrlName(repo) && IsUrlName(owner') && IsUrlName(repo')
    requires owner' + ['/'] + (repo' + ".git") == owner + ['/'] + (repo + ".git" + extra)
    requires extra == "" || '/' in extra
    ensures owner == owner' && repo == repo'
  {
    NameFree(owner, "");
    NameFree(owner', "");
    NameFree(repo', ".git");
    CutUnique(owner', owner, '/', repo' + ".git", repo + ".git" + extra);
    assert forall c :: c in extra ==> c in repo + ".git" + extra;
    assert repo' + ".git" == repo + ".git";
    TrimSuffixUndoes(repo, ".git");
    TrimSuffixUndoes(repo', ".git");
  }

  lemma DropPrefix(base: string, tail: string, tail': string)
    requires base + tail <= base + tail'
    ensures tail <= tail' && tail' == tail + tail'[|tail|..]
  {
    assert (base + tail')[|base|..] == tail';
    assert (base + tail')[..|base + tail|] == base + tail;
    assert (base + tail)[|base|..] == tail;
  }

  /** No repository's directory is or lies in another's. */
  lemma PathsApart(root: string, owner: string, repo: string, owner': string, repo': string)
    requires IsSlug(owner) && IsSlug(repo) && IsSlug(owner') && IsSlug(repo')
    requires Inside(RepoPath(root, owner, repo), RepoPath(root, owner', repo'))
    ensures owner == owner' && repo == repo'
  {
    SlugIsUrlName(owner);
    SlugIsUrlName(repo);
    SlugIsUrlName(owner');
    SlugIsUrlName(repo');
    var tail, tail' := owner + "/" + (repo + ".git"), owner' + "/" + (repo' + ".git");
    if RepoPath(root, owner', repo') == RepoPath(root, owner, repo) {
      DropPrefix(RootPrefix(root), tail, tail');
      DropPrefix(RootPrefix(root), tail', tail);
      assert tail == owner + ['/'] + (repo + ".git" + "");
      TailsApart(owner, repo, owner', repo', "");
    } else {
      assert RepoPath(root, owner, repo) + "/" == RootPrefix(root) + (tail + "/");
      DropPrefix(RootPrefix(root), tail + "/", tail');
      var extra := "/" + tail'[|tail + "/"|..];
      assert tail' == owner + ['/'] + (repo + ".git" + extra);
      TailsApart(owner, repo, owner', repo', extra);
    }
  }

  // --- smart HTTP ------------------------------------------------------------------------

  function CloneUrl(baseUrl: string, owner: string, repo: string): string {
    baseUrl + "/" + (owner + "/" + repo) + ".git"
  }

  /** The string matches `^/(C+)/(C+)\.git` followed by `tail`, with these two groups. */
  predicate Matches(path: string, tail: string, owner: string, repo: string) {
    IsUrlName(owner) && IsUrlName(repo) && path == ['/'] + (owner + ['/'] + (repo + (".git" + tail)))
  }

  /** `FindStringSubmatch` of the three patterns. */
  function Match(path: string, tail: string): Option<(string, string)> {
    if path == "" || path[0] != '/' then None
    else
      match Cut(path[1..], '/')
      case None => None
      case Some((owner, rest)) =>
        var repo := TrimSuffix(rest, ".git" + tail);
        if EndsWith(rest, ".git" + tail) && IsUrlName(owner) && IsUrlName(repo) then Some((owner, repo)) else None
  }

  /** The groups found are the only ones there are. */
  lemma MatchIff(path: string, tail: string, owner: string, repo: string)
    ensures Match(path, tail) == Some((owner, repo)) <==> Matches(path, tail, owner, repo)
  {
    if Matches(path, tail, owner, repo) {
      assert path[1..] == owner + ['/'] + (repo + (".git" + tail));
      CutSplits(owner, '/', repo + (".git" + tail));
      TrimSuffixUndoes(repo, ".git" + tail);
    }
    if Match(path, tail) == Some((owner, repo)) {
      CutJoins(path[1..], '/');
      var (left, rest) := Cut(path[1..], '/').value;
      assert rest == repo + (".git" + tail);
      assert path == ['/'] + path[1..];
    }
  }

  const UPLOAD := "git-upload-pack"
  const RECEIVE := "git-receive-pack"

  datatype Route = NotFound | InvalidService | Dispatch(owner: string, repo: string, service: string, infoRefs: bool)

  /** `ServeHTTP`: the first pattern that fits the method and path decides. */
  function ServeHttp(verb: string, path: string, service: string): Route {
    var refs, upload, receive := Match(path, "/info/refs"), Match(path, "/" + UPLOAD), Match(path, "/" + RECEIVE);
    if verb == "GET" && refs.Some? then
      if service != UPLOAD && service != RECEIVE then InvalidService
      else Dispatch(refs.value.0, refs.value.1, service, true)
    else if verb == "POST" && upload.Some? then Dispatch(upload.value.0, upload.value.1, UPLOAD, false)
    else if verb == "POST" && receive.Some? then Dispatch(receive.value.0, receive.value.1, RECEIVE, false)
    else NotFound
  }

  predicate IsService(service: string) {
    service == "git-upload-pack" || service == "git-receive-pack"
  }

  /** A request is dispatched exactly if it reads the refs for a service there is, or posts to one; anything else is refused. */
  lemma RoutesIff(verb: string, path: string, service: string, owner: string, repo: string, infoRefs: bool, chosen: string)
    ensures ServeHttp(verb, path, service) == Dispatch(owner, repo, chosen, infoRefs) <==>
            || (infoRefs && verb == "GET" && IsService(service) && chosen == service && Matches(path, "/info/refs", owner, repo))
            || (!infoRefs && verb == "POST" && IsService(chosen) && Matches(path, "/" + chosen, owner, repo))
    ensures ServeHttp(verb, path, service) == InvalidService <==>
            verb == "GET" && !IsService(service) && Match(path, "/info/refs").Some?
  {
    MatchIff(path, "/info/refs", owner, repo);
    MatchIff(path, "/" + UPLOAD, owner, repo);
    MatchIff(path, "/" + RECEIVE, owner, repo);
    OneService(path);
  }

  lemma MatchEndsWith(path: string, tail: string)
    ensures Match(path, tail).Some? ==> EndsWith(path, tail)
  {
    var m := Match(path, tail);
    if m.Some? { MatchIff(path, tail, m.value.0, m.value.1); }
  }

  /** The patterns exclude each other, so their order in the switch does not matter. */
  lemma OneService(path: string)
    ensures Match(path, "/" + UPLOAD).None? || Match(path, "/" + RECEIVE).None?
  {
    MatchEndsWith(path, "/" + UPLOAD);
    MatchEndsWith(path, "/" + RECEIVE);
    assert EndsWith(path, "/" + UPLOAD) ==> path[|path| - 11] == ("/" + UPLOAD)[5];
    assert EndsWith(path, "/" + RECEIVE) ==> path[|path| - 11] == ("/" + RECEIVE)[6];
  }

  // --- SSH ---------------------------------------------------------------------------------

  const WORD := 0x1_0000_0000

  predicate IsBytes(s: string) {
    forall i :: 0 <= i < |s| ==> s[i] as int < 256
  }

  /** The `uint32` of section 5 of RFC 4251. */
  function BigEndian(n: nat): string
    requires n < WORD
  {
    var (q1, q2) := (n / 256, n / 256 / 256);
    [(q2 / 256) as char, (q2 % 256) as char, (q1 % 256) as char, (n % 256) as char]
  }

  function Uint32(b: string): nat
    requires |b| >= 4 && IsBytes(b)
  {
    ((b[0] as int * 256 + b[1] as int) * 256 + b[2] as int) * 256 + b[3] as int
  }

  lemma Uint32ReadsBack(n: nat, rest: string)
    requires n < WORD && IsBytes(rest)
    ensures IsBytes(BigEndian(n) + rest) && Uint32(BigEndian(n) + rest) == n
  {
    var s := BigEndian(n) + rest;
    assert s[0] == BigEndian(n)[0] && s[1] == BigEndian(n)[1] && s[2] == BigEndian(n)[2] && s[3] == BigEndian(n)[3];
  }

  /** Four bytes, the most significant first. */
  lemma BigEndianIs(n: nat, b: string)
    requires n < WORD && |b| >= 4 && IsBytes(b)
    ensures |BigEndian(n)| == 4
    ensures Uint32(b) == 16777216 * (b[0] as int) + 65536 * (b[1] as int) + 256 * (b[2] as int) + b[3] as int
    ensures n == 16777216 * (BigEndian(n)[0] as int) + 65536 * (BigEndian(n)[1] as int) + 256 * (BigEndian(n)[2] as int) + BigEndian(n)[3] as int
  {
    Uint32ReadsBack(n, "");
    assert BigEndian(n) + "" == BigEndian(n);
  }

  predicate Quote(c: char) { c == '\'' || c == '"' }

  function TrimLeft(s: string): string {
    if s != "" && Quote(s[0]) then TrimLeft(s[1..]) else s
  }

  function TrimRight(s: string): string {
    if s != "" && Quote(s[|s| - 1]) then TrimRight(s[..|s| - 1]) else s
  }

  datatype Exec = TooShort | LengthMismatch | Empty | NoArgument | Panics | Command(name: string, repoPath: string)

  /** `parseGitCommand`; the end of the slice is computed in 32 bits, and a slice may not end before it starts. */
  function ParseGitCommand(payload: string): Exec
    requires IsBytes(payload)
  {
    if |payload| < 4 then TooShort
    else
      var length := Uint32(payload);
      if length > |payload| - 4 then LengthMismatch
      else
        var end := if 4 + length < WORD then 4 + length else 4 + length - WORD;
        if end < 4 then Panics
        else
          var cmd := payload[4..end];
          if cmd == "" then Empty
          else
            match Cut(cmd, ' ')
            case None => NoArgument
            case Some((name, rest)) => Command(name, TrimRight(TrimLeft(rest)))
  }

  function ParseRepoPath(raw: string): (string, string) {
    var path := TrimSuffix(if raw != "" && raw[0] == '/' then raw[1..] else raw, ".git");
    match Cut(path, '/')
    case None => (path, "")
    case Some((owner, repo)) => (owner, repo)
  }

  predicate AllQuotes(s: string) {
    forall i :: 0 <= i < |s| ==> s[i] == '\'' || s[i] == '"'
  }

  lemma {:induction false} TrimLeftIs(s: string) returns (n: nat)
    ensures n <= |s| && AllQuotes(s[..n]) && TrimLeft(s) == s[n..]
    ensures TrimLeft(s) != "" ==> !Quote(TrimLeft(s)[0])
    decreases |s|
  {
    n := 0;
    if s != "" && Quote(s[0]) {
      var m := TrimLeftIs(s[1..]);
      n := m + 1;
      assert s[..n] == [s[0]] + s[1..][..m] && s[n..] == s[1..][m..];
    }
  }

  lemma {:induction false} TrimRightIs(s: string) returns (n: nat)
    ensures n <= |s| && AllQuotes(s[n..]) && TrimRight(s) == s[..n]
    ensures n > 0 ==> !Quote(s[n - 1])
    decreases |s|
  {
    n := |s|;
    if s != "" && Quote(s[|s| - 1]) {
      var init := s[..|s| - 1];
      n := TrimRightIs(init);
      assert s[n..] == init[n..] + [s[|s| - 1]] && s[..n] == init[..n];
    }
  }

  /** Trimming takes quotes of either kind off both ends, as many as there are, and nothing else. */
  lemma TrimIs(s: string) returns (left: string, right: string)
    ensures s == left + TrimRight(TrimLeft(s)) + right && AllQuotes(left) && AllQuotes(right)
    ensures var r := TrimRight(TrimLeft(s)); r != "" ==> !Quote(r[0]) && !Quote(r[|r| - 1])
  {
    var n := TrimLeftIs(s);
    var t := TrimLeft(s);
    var m := TrimRightIs(t);
    left, right := s[..n], t[m..];
    assert s == s[..n] + t && t == t[..m] + t[m..];
  }

  predicate SplitsAtFirstSpace(cmd: string, name: string, repoPath: string) {
    ' ' !in name && name + " " <= cmd && repoPath == TrimRight(TrimLeft(cmd[|name| + 1..]))
  }

  /** What an exec payload is answered with, by its declared length and the first space of the command, for payloads of any content. */
  lemma ExecIff(payload: string)
    requires IsBytes(payload) && |payload| < WORD
    ensures var exec := ParseGitCommand(payload);
            && (exec.TooShort? <==> |payload| < 4)
            && (|payload| >= 4 ==>
                  var n := Uint32(payload);
                  && (exec.LengthMismatch? <==> n > |payload| - 4)
                  && (n <= |payload| - 4 ==>
                        var cmd := payload[4..4 + n];
                        && (exec.Empty? <==> n == 0)
                        && (exec.NoArgument? <==> n > 0 && ' ' !in cmd)
                        && (exec.Command? ==> SplitsAtFirstSpace(cmd, exec.name, exec.repoPath))))
  {
    if |payload| >= 4 && Uint32(payload) <= |payload| - 4 {
      var cmd := payload[4..4 + Uint32(payload)];
      CutJoins(cmd, ' ');
      CutFinds(cmd, ' ');
    }
  }

  lemma {:induction false} CutFinds(s: string, sep: char)
    ensures Cut(s, sep).Some? <==> sep in s
    decreases |s|
  {
    if s != "" {
      CutFinds(s[1..], sep);
      assert s == [s[0]] + s[1..];
    }
  }

  /** The slice bound wraps only for a declared length that no payload below four gibibytes can honour. */
  lemma PanicsIff(payload: string)
    requires IsBytes(payload)
    ensures ParseGitCommand(payload).Panics? <==>
            |payload| >= 4 && WORD - 4 <= Uint32(payload) <= |payload| - 4
    ensures ParseGitCommand(payload).Panics? ==> |payload| >= WORD
  {
  }

  lemma {:induction false} TrimQuoted(s: string)
    requires s != "" && !Quote(s[0]) && !Quote(s[|s| - 1])
    ensures TrimRight(TrimLeft("'" + s + "'")) == s
  {
    var quoted := "'" + s + "'";
    assert quoted[1..] == s + "'";
    assert TrimLeft(quoted) == s + "'";
    assert (s + "'")[..|s|] == s;
  }

  /** What git sends to run `service` on the path `raw`, as the exec payload of section 6.5 of RFC 4254. */
  function ExecPayload(service: string, raw: string): string
    requires |service| + |raw| + 3 < WORD
  {
    var cmd := service + [' '] + ("'" + raw + "'");
    BigEndian(|cmd|) + cmd
  }

  /** A length field that tells the truth yields the command itself. */
  lemma Unframe(header: string, cmd: string)
    requires |header| == 4 && IsBytes(header + cmd) && Uint32(header + cmd) == |cmd| && cmd != "" && |cmd| < WORD - 4
    ensures ParseGitCommand(header + cmd) ==
            match Cut(cmd, ' ')
            case None => NoArgument
            case Some((name, rest)) => Command(name, TrimRight(TrimLeft(rest)))
  {
    var payload := header + cmd;
    assert payload[4..] == cmd;
    assert payload[4..4 + |cmd|] == cmd;
  }

  lemma ExecRoundTrip(service: string, raw: string)
    requires service != "" && Free(service, ' ') && raw != "" && !Quote(raw[0]) && !Quote(raw[|raw| - 1])
    requires IsBytes(service) && IsBytes(raw) && |service| + |raw| + 7 < WORD
    ensures IsBytes(ExecPayload(service, raw))
    ensures ParseGitCommand(ExecPayload(service, raw)) == Command(service, raw)
  {
    var cmd := service + [' '] + ("'" + raw + "'");
    Uint32ReadsBack(|cmd|, cmd);
    Unframe(BigEndian(|cmd|), cmd);
    CutSplits(service, ' ', "'" + raw + "'");
    TrimQuoted(raw);
  }

  lemma RepoPathRoundTrip(owner: string, repo: string)
    requires IsUrlName(owner) && IsUrlName(repo)
    ensures ParseRepoPath("/" + (owner + ("/" + (repo + ".git")))) == (owner, repo)
    ensures ParseRepoPath(owner + ("/" + (repo + ".git"))) == (owner, repo)
  {
    var path := owner + ['/'] + repo;
    var full := owner + ("/" + (repo + ".git"));
    assert full == path + ".git";
    assert ("/" + full)[1..] == full;
    TrimSuffixUndoes(path, ".git");
    NameFree(owner, "");
    CutSplits(owner, '/', repo);
  }

  function Bare(raw: string): string {
    if raw != "" && raw[0] == '/' then raw[1..] else raw
  }

  lemma GitSuffix(s: string)
    ensures EndsWith(s + ".git", ".git") && TrimSuffix(s + ".git", ".git") == s
    ensures !EndsWith(s, ".git") ==> TrimSuffix(s, ".git") == s
  {
    TrimSuffixUndoes(s, ".git");
  }

  /** A path, without its leading slash and its suffix, is split at its first slash; without one there is no name. */
  lemma RepoPathIff(raw: string, path: string)
    requires Bare(raw) == path + ".git" || (Bare(raw) == path && !EndsWith(path, ".git"))
    ensures '/' !in path ==> ParseRepoPath(raw) == (path, "")
    ensures '/' in path ==>
              var (owner, repo) := ParseRepoPath(raw);
              path == owner + "/" + repo && '/' !in owner
  {
    GitSuffix(path);
    CutFinds(path, '/');
    CutJoins(path, '/');
  }

  function UrlPath(owner: string, repo: string): string {
    "/" + (owner + ("/" + (repo + ".git")))
  }

  lemma SshAgrees(owner: string, repo: string, service: string)
    requires IsUrlName(owner) && IsUrlName(repo) && (service == UPLOAD || service == RECEIVE)
    requires |owner| + |repo| + 40 < WORD
    ensures IsBytes(ExecPayload(service, UrlPath(owner, repo)))
    ensures ParseGitCommand(ExecPayload(service, UrlPath(owner, repo))) == Command(service, UrlPath(owner, repo))
  {
    var path := UrlPath(owner, repo);
    assert path == "/" + owner + "/" + repo + ".git";
    assert path[|path| - 1] == 't';
    ExecRoundTrip(service, path);
  }

  /** The path of the clone URL, and the command that a git client sends for it. */
  lemma UrlPathIs(owner: string, repo: string, service: string)
    requires |service| + |owner| + |repo| + 9 < WORD
    ensures UrlPath(owner, repo) == "/" + owner + "/" + repo + ".git"
    ensures ExecPayload(service, UrlPath(owner, repo))[4..] == service + " '" + UrlPath(owner, repo) + "'"
  {
    var path := UrlPath(owner, repo);
    assert path == "/" + owner + "/" + repo + ".git";
    assert service + [' '] + ("'" + path + "'") == service + " '" + path + "'";
  }

  /**
   The clone URL, with the suffixes a git client appends, is dispatched by the HTTP server, and the
   command a git client sends is parsed by the SSH server, to the same owner and repository.
   */
  lemma FrontEndsAgree(baseUrl: string, owner: string, repo: string, service: string)
    requires IsUrlName(owner) && IsUrlName(repo) && (service == UPLOAD || service == RECEIVE)
    requires |owner| + |repo| + 40 < WORD
    ensures var path := UrlPath(owner, repo);
            && CloneUrl(baseUrl, owner, repo) == baseUrl + path
            && ServeHttp("GET", path + "/info/refs", service) == Dispatch(owner, repo, service, true)
            && ServeHttp("POST", path + ("/" + service), "") == Dispatch(owner, repo, service, false)
            && IsBytes(ExecPayload(service, path))
            && ParseGitCommand(ExecPayload(service, path)) == Command(service, path)
            && ParseRepoPath(path) == (owner, repo)
  {
    assert CloneUrl(baseUrl, owner, repo) == baseUrl + UrlPath(owner, repo);
    HttpAgrees(owner, repo, "/info/refs");
    HttpAgrees(owner, repo, "/" + service);
    OneService(UrlPath(owner, repo) + ("/" + service));
    SshAgrees(owner, repo, service);
    RepoPathRoundTrip(owner, repo);
  }

  lemma HttpAgrees(owner: string, repo: string, tail: string)
    requires IsUrlName(owner) && IsUrlName(repo)
    ensures Match(UrlPath(owner, repo) + tail, tail) == Some((owner, repo))
  {
    var path := UrlPath(owner, repo) + tail;
    assert path == ['/'] + (owner + ['/'] + (repo + (".git" + tail)));
    MatchIff(path, tail, owner, repo);
  }

  // --- the custom resource -----------------------------------------------------------------

  function CrName(owner: string, repo: string): string {
    owner + ['-'] + repo
  }

  /** A hyphen between two alphanumerics of the name, other than the one that joins it. */
  predicate SplitsAgain(owner: string, repo: string, i: int) {
    var s := CrName(owner, repo);
    0 < i < |s| - 1 && i != |owner| && s[i] == '-' && LowerAlnum(s[i - 1]) && LowerAlnum(s[i + 1])
  }

  /** Another repository shares the resource name exactly if the name splits at another hyphen. */
  lemma CrNameSharedIff(owner: string, repo: string)
    requires IsSlug(owner) && IsSlug(repo)
    ensures (exists i :: SplitsAgain(owner, repo, i)) <==>
            exists owner', repo' :: IsSlug(owner') && IsSlug(repo') && (owner', repo') != (owner, repo) &&
              CrName(owner', repo') == CrName(owner, repo)
  {
    var s := CrName(owner, repo);
    if i :| SplitsAgain(owner, repo, i) {
      assert s == s[..i] + ['-'] + s[i + 1..];
      assert IsSlug(s[..i]) && IsSlug(s[i + 1..]) && CrName(s[..i], s[i + 1..]) == s;
    }
    forall owner', repo' | IsSlug(owner') && IsSlug(repo') && (owner', repo') != (owner, repo) && CrName(owner', repo') == s
      ensures SplitsAgain(owner, repo, |owner'|)
    {
      var s' := CrName(owner', repo');
      assert s'[|owner'|] == '-' && s'[..|owner'|] == owner' && s'[|owner'| + 1..] == repo';
      assert s[..|owner|] == owner && s[|owner| + 1..] == repo;
      assert s'[|owner'| - 1] == owner'[|owner'| - 1] && s'[|owner'| + 1] == repo'[0];
    }
  }

  /** For instance ann-b's c and ann's b-c. */
  lemma CrNameShared()
    ensures IsSlug("ann-b") && IsSlug("c") && IsSlug("ann") && IsSlug("b-c")
    ensures CrName("ann-b", "c") == CrName("ann", "b-c")
  {
  }
}
