/** The migration runner script: the `.env.local` reader, the abort on a missing
    URL or service key, the name-sorted list of `.sql` files, the split of a
    file into statements, the per-statement execution loop that fails only on an
    exception, the success and failure counts, and the choice of print mode. */
module Migrations {
  import opened Wrappers
  import opened Js

  // ---------------------------------------------------------------------------
  // .env.local
  // ---------------------------------------------------------------------------

  /** The characters at which the regular expression `.` stops. */
  predicate IsLineTerminator(c: char) {
    c == '\n' || c == '\r' || c == '\U{2028}' || c == '\U{2029}'
  }

  /** `/^([^#][^=]+)=(.+)$/` matches `line` with its `=` at `k`: the first group
      is `line[..k]` (a character other than `#`, then at least one character
      other than `=`), the second is the non-empty rest, free of line terminators. */
  predicate EnvSplitAt(line: string, k: int) {
    && 2 <= k < |line| - 1
    && line[0] != '#'
    && (forall i :: 1 <= i < k ==> line[i] != '=')
    && line[k] == '='
    && (forall i :: k < i < |line| ==> !IsLineTerminator(line[i]))
  }

  datatype EnvEntry = EnvEntry(key: string, value: string)

  /** The pattern's answer when its `=` is taken to be at `k`: the trimmed
      groups when the pattern matches there. */
  function MatchAt(line: string, k: int): Option<EnvEntry> {
    if EnvSplitAt(line, k) then Some(EnvEntry(Trim(line[..k]), Trim(line[k + 1..]))) else None
  }

  /** One line of `.env.local`: the trimmed key and value when the pattern
      matches. A match can only split at the first `=` after the first character,
      because the first group cannot hold one. */
  function ParseLine(line: string): Option<EnvEntry> {
    if line == [] then None else MatchAt(line, 1 + IndexOf(line[1..], '='))
  }

  /** `ParseLine` is the regular expression: it accepts exactly the lines the
      pattern matches, and then returns the two groups trimmed. */
  lemma ParseLineMatchesPattern(line: string)
    ensures ParseLine(line).Some? <==> exists k :: EnvSplitAt(line, k)
    ensures forall k :: EnvSplitAt(line, k) ==> ParseLine(line) == Some(EnvEntry(Trim(line[..k]), Trim(line[k + 1..])))
  {
    forall k | EnvSplitAt(line, k)
      ensures ParseLine(line) == Some(EnvEntry(Trim(line[..k]), Trim(line[k + 1..])))
    {
      ParseLineAt(line, k);
    }
  }

  lemma ParseLineAt(line: string, k: int)
    requires EnvSplitAt(line, k)
    ensures ParseLine(line) == Some(EnvEntry(Trim(line[..k]), Trim(line[k + 1..])))
  {
    calc {
      ParseLine(line);
      MatchAt(line, 1 + IndexOf(line[1..], '='));
    == { EqualsPosition(line, k); }
      MatchAt(line, k);
      Some(EnvEntry(Trim(line[..k]), Trim(line[k + 1..])));
    }
  }

  /** The `=` the pattern splits at is the first one after the first character. */
  lemma EqualsPosition(line: string, k: int)
    requires EnvSplitAt(line, k)
    ensures k == 1 + IndexOf(line[1..], '=')
  {
    var t := line[1..];
    assert t[k - 1] == '=';
    forall i | 0 <= i < k - 1
      ensures t[i] != '='
    {
      assert t[i] == line[i + 1];
    }
  }

  /** A line starting with `#` is a comment and defines nothing. */
  lemma CommentLineIgnored(line: string)
    requires line != [] && line[0] == '#'
    ensures ParseLine(line).None?
  {
  }

  /** The first group needs two characters, so a one-character key is never read. */
  lemma OneCharacterKeyIgnored(c: char, value: string)
    ensures ParseLine([c] + "=" + value).None?
  {
    var line := [c] + "=" + value;
    assert line[1..][0] == '=';
  }

  /** Writing `KEY=value` with a key of two or more characters reads back the key and the value. */
  lemma {:induction false} ParseLineOfEntry(key: string, value: string)
    requires |key| >= 2 && key[0] != '#' && '=' !in key && IsTrimmed(key)
    requires value != [] && IsTrimmed(value) && forall c :: c in value ==> !IsLineTerminator(c)
    ensures ParseLine(key + "=" + value) == Some(EnvEntry(key, value))
  {
    var line := key + "=" + value;
    var k := |key|;
    assert line[..k] == key;
    assert line[k + 1..] == value;
    forall i | k < i < |line|
      ensures !IsLineTerminator(line[i])
    {
      assert line[i] == value[i - k - 1];
    }
    assert EnvSplitAt(line, k);
    ParseLineMatchesPattern(line);
    TrimOfTrimmed(key);
    TrimOfTrimmed(value);
  }

  /** `envVars[key] = value` for an accepted line; nothing for a rejected one. */
  function Apply(env: map<string, string>, e: Option<EnvEntry>): map<string, string> {
    if e.Some? then env[e.value.key := e.value.value] else env
  }

  /** The `envVars` object after the given parsed lines, applied in order. */
  function EnvOfEntries(entries: seq<Option<EnvEntry>>): map<string, string> {
    if entries == [] then map[]
    else Apply(EnvOfEntries(entries[..|entries| - 1]), entries[|entries| - 1])
  }

  function ParseLines(lines: seq<string>): (entries: seq<Option<EnvEntry>>)
    ensures |entries| == |lines|
    ensures forall i :: 0 <= i < |lines| ==> entries[i] == ParseLine(lines[i])
  {
    seq(|lines|, i requires 0 <= i < |lines| => ParseLine(lines[i]))
  }

  /** The `envVars` object built from the lines of `.env.local`. */
  function EnvOf(lines: seq<string>): map<string, string> {
    EnvOfEntries(ParseLines(lines))
  }

  /** The entry sets `key`. */
  predicate Defines(e: Option<EnvEntry>, key: string) {
    e.Some? && e.value.key == key
  }

  /** A key is defined exactly when some accepted line names it. */
  lemma {:induction false} EnvKeys(entries: seq<Option<EnvEntry>>, key: string)
    ensures key in EnvOfEntries(entries) <==> exists i :: 0 <= i < |entries| && Defines(entries[i], key)
  {
    if entries != [] {
      var n := |entries| - 1;
      var init := entries[..n];
      EnvKeys(init, key);
      if key in EnvOfEntries(entries) && !Defines(entries[n], key) {
        assert key in EnvOfEntries(init);
        var i :| 0 <= i < |init| && Defines(init[i], key);
        assert entries[i] == init[i];
      }
      if exists i :: 0 <= i < |entries| && Defines(entries[i], key) {
        var i :| 0 <= i < |entries| && Defines(entries[i], key);
        if i < n {
          assert init[i] == entries[i];
        }
      }
    }
  }

  /** A later line overwrites an earlier one: the value of a key is the one on
      the last line that defines it. */
  lemma {:induction false} LastDefinitionWins(entries: seq<Option<EnvEntry>>, i: nat, key: string, value: string)
    requires i < |entries| && entries[i] == Some(EnvEntry(key, value))
    requires forall j :: i < j < |entries| ==> !Defines(entries[j], key)
    ensures key in EnvOfEntries(entries) && EnvOfEntries(entries)[key] == value
  {
    var init := entries[..|entries| - 1];
    if i < |entries| - 1 {
      assert !Defines(entries[|entries| - 1], key);
      forall j | i < j < |init|
        ensures !Defines(init[j], key)
      {
        assert init[j] == entries[j];
      }
      assert init[i] == entries[i];
      LastDefinitionWins(init, i, key, value);
    }
  }

  /** The `forEach` over the lines of `.env.local`. */
  method LoadEnv(content: string) returns (env: map<string, string>)
    ensures env == EnvOf(Split(content, '\n'))
  {
    var lines := Split(content, '\n');
    ghost var entries := ParseLines(lines);
    env := map[];
    var i := 0;
    while i < |lines|
      invariant 0 <= i <= |lines|
      invariant env == EnvOfEntries(entries[..i])
    {
      assert entries[..i + 1][..i] == entries[..i];
      var e := ParseLine(lines[i]);
      if e.Some? {
        env := env[e.value.key := e.value.value];
      }
      i := i + 1;
    }
    assert entries[..i] == entries;
  }

  const UrlKey := "VITE_SUPABASE_URL"
  const ServiceKey := "SUPABASE_SERVICE_ROLE_KEY"

  datatype Config = MissingCredentials | Credentials(url: string, serviceKey: string)

  /** The script stops unless both the URL and the service key are set and non-empty. */
  function ReadConfig(env: map<string, string>): (c: Config)
    ensures c.MissingCredentials? <==> UrlKey !in env || env[UrlKey] == "" || ServiceKey !in env || env[ServiceKey] == ""
    ensures c.Credentials? ==> c.url == env[UrlKey] && c.serviceKey == env[ServiceKey]
  {
    if UrlKey !in env || env[UrlKey] == "" || ServiceKey !in env || env[ServiceKey] == "" then MissingCredentials
    else Credentials(env[UrlKey], env[ServiceKey])
  }

  /** A value of only white space is trimmed to nothing, which also aborts. */
  lemma BlankUrlAborts(env: map<string, string>, blank: string)
    requires forall c :: c in blank ==> IsSpace(c)
    ensures ReadConfig(env[UrlKey := Trim(blank)]).MissingCredentials?
  {
    TrimStartOfBlank(blank);
  }

  lemma {:induction false} TrimStartOfBlank(s: string)
    requires forall c :: c in s ==> IsSpace(c)
    ensures TrimStart(s) == ""
  {
    if s != [] {
      assert s[0] in s;
      assert forall c :: c in s[1..] ==> c in s;
      TrimStartOfBlank(s[1..]);
    }
  }

  // ---------------------------------------------------------------------------
  // The migration list
  // ---------------------------------------------------------------------------

  /** `a <= b` on strings as `Array.prototype.sort` compares them by default. */
  predicate NameLe(a: string, b: string) {
    if a == [] then true
    else if b == [] then false
    else if a[0] != b[0] then a[0] < b[0]
    else NameLe(a[1..], b[1..])
  }

  lemma {:induction false} NameLeTotal(a: string, b: string)
    ensures NameLe(a, b) || NameLe(b, a)
  {
    if a != [] && b != [] && a[0] == b[0] {
      NameLeTotal(a[1..], b[1..]);
    }
  }

  lemma {:induction false} NameLeTransitive(a: string, b: string, c: string)
    requires NameLe(a, b) && NameLe(b, c)
    ensures NameLe(a, c)
  {
    if a != [] && b != [] && c != [] && a[0] == b[0] && b[0] == c[0] {
      NameLeTransitive(a[1..], b[1..], c[1..]);
    }
  }

  predicate Sorted(s: seq<string>) {
    forall i, j :: 0 <= i < j < |s| ==> NameLe(s[i], s[j])
  }

  function Insert(x: string, s: seq<string>): (r: seq<string>)
    ensures multiset(r) == multiset{x} + multiset(s)
  {
    if s == [] then [x]
    else if NameLe(x, s[0]) then [x] + s
    else
      assert s == [s[0]] + s[1..];
      [s[0]] + Insert(x, s[1..])
  }

  lemma {:induction false} InsertSorted(x: string, s: seq<string>)
    requires Sorted(s)
    ensures Sorted(Insert(x, s))
  {
    if s == [] {
    } else if NameLe(x, s[0]) {
      forall j | 0 <= j < |s|
        ensures NameLe(x, s[j])
      {
        if j > 0 {
          NameLeTransitive(x, s[0], s[j]);
        }
      }
      PrependSorted(x, s);
    } else {
      InsertSorted(x, s[1..]);
      NameLeTotal(x, s[0]);
      HeadBelowInsert(x, s);
      PrependSorted(s[0], Insert(x, s[1..]));
    }
  }

  /** An element below every element of a sorted list can go in front of it. */
  lemma PrependSorted(y: string, t: seq<string>)
    requires Sorted(t) && forall j :: 0 <= j < |t| ==> NameLe(y, t[j])
    ensures Sorted([y] + t)
  {
    var r := [y] + t;
    forall i, j | 0 <= i < j < |r|
      ensures NameLe(r[i], r[j])
    {
      assert r[j] == t[j - 1];
      if i > 0 {
        assert r[i] == t[i - 1];
      }
    }
  }

  /** The head of a sorted list is below everything inserted behind it. */
  lemma HeadBelowInsert(x: string, s: seq<string>)
    requires Sorted(s) && s != [] && NameLe(s[0], x)
    ensures forall j :: 0 <= j < |Insert(x, s[1..])| ==> NameLe(s[0], Insert(x, s[1..])[j])
  {
    var t := Insert(x, s[1..]);
    forall j | 0 <= j < |t|
      ensures NameLe(s[0], t[j])
    {
      assert t[j] in multiset(t);
      if t[j] != x {
        assert t[j] in multiset(s[1..]);
        var k :| 0 <= k < |s[1..]| && s[1..][k] == t[j];
        assert s[k + 1] == t[j];
      }
    }
  }

  /** `.sort()` on file names: sorted and a permutation of its input. */
  function SortNames(s: seq<string>): (r: seq<string>)
    ensures Sorted(r) && multiset(r) == multiset(s)
  {
    if s == [] then []
    else
      var t := SortNames(s[1..]);
      InsertSorted(s[0], t);
      assert s == [s[0]] + s[1..];
      Insert(s[0], t)
  }

  predicate IsSqlFile(name: string) {
    EndsWith(name, ".sql")
  }

  /** `.filter(file => file.endsWith(".sql"))`. */
  function SqlFiles(names: seq<string>): (r: seq<string>)
    ensures forall f :: f in r ==> IsSqlFile(f)
    ensures forall f :: f in multiset(names) && IsSqlFile(f) ==> multiset(r)[f] == multiset(names)[f]
    ensures forall f :: f in multiset(r) ==> f in multiset(names)
  {
    if names == [] then []
    else
      assert names == [names[0]] + names[1..];
      (if IsSqlFile(names[0]) then [names[0]] else []) + SqlFiles(names[1..])
  }

  /** The order the migrations run in: every `.sql` entry of the directory, each
      as often as it is listed, and nothing else, in name order. */
  function MigrationOrder(entries: seq<string>): (order: seq<string>)
    ensures Sorted(order)
    ensures forall f :: f in order ==> IsSqlFile(f) && f in entries
    ensures forall f :: IsSqlFile(f) ==> multiset(order)[f] == multiset(entries)[f]
  {
    var files := SqlFiles(entries);
    var order := SortNames(files);
    assert forall f :: f in order ==> f in multiset(files);
    order
  }

  // ---------------------------------------------------------------------------
  // Statements
  // ---------------------------------------------------------------------------

  /** A chunk that is sent: non-empty, trimmed, without `;`, not starting with `--`. */
  predicate IsStatement(s: string) {
    s != "" && IsTrimmed(s) && ';' !in s && !StartsWith(s, "--")
  }

  /** `.filter(s => s.length > 0 && !s.startsWith("--"))`. */
  function KeepStatements(chunks: seq<string>): (r: seq<string>)
    ensures |r| <= |chunks|
    ensures forall s :: s in r <==> s in chunks && s != "" && !StartsWith(s, "--")
  {
    if chunks == [] then []
    else (if chunks[0] != "" && !StartsWith(chunks[0], "--") then [chunks[0]] else []) + KeepStatements(chunks[1..])
  }

  /** The statements `executeSql` runs, as written: split on `;`, trim, drop the
      empty chunks and the chunks that start with `--`. */
  function StatementsAsWritten(sql: string): seq<string> {
    KeepStatements(TrimAll(Split(sql, ';')))
  }

  /** Every statement sent is non-empty, trimmed, free of `;` and not a comment. */
  lemma StatementsAsWrittenAreStatements(sql: string)
    ensures forall s :: s in StatementsAsWritten(sql) ==> IsStatement(s)
  {
    TrimKeepsSeparatorOut(Split(sql, ';'), ';');
  }

  /** Trimming keeps two leading dashes. */
  lemma TrimKeepsDashes(c: string)
    requires StartsWith(c, "--")
    ensures StartsWith(Trim(c), "--")
  {
    assert c[0] == '-' && c[1] == '-';
    assert TrimStart(c) == c;
    var r := TrimEnd(c);
    assert !IsSpace(c[1]);
    assert r[..2] == c[..2];
  }

  /** A comment line in front of a statement makes its chunk start with `--`, so
      the statement behind the comment is never run. */
  lemma {:induction false} CommentedStatementIsLost(comment: string, stmt: string)
    requires StartsWith(comment, "--") && ';' !in comment && ';' !in stmt
    ensures StatementsAsWritten(comment + "\n" + stmt + ";") == []
  {
    var chunk := comment + "\n" + stmt;
    assert ';' !in chunk;
    SplitOneChunk(chunk);
    assert StartsWith(chunk, "--") by {
      assert chunk[..2] == comment[..2];
    }
    TrimKeepsDashes(chunk);
    KeepCommentAndEmpty(TrimAll([chunk, ""]));
  }

  /** A comment chunk followed by an empty one leaves nothing. */
  lemma KeepCommentAndEmpty(chunks: seq<string>)
    requires |chunks| == 2 && StartsWith(chunks[0], "--") && chunks[1] == ""
    ensures KeepStatements(chunks) == []
  {
    assert chunks[1..] == [""];
  }

  /** Lines that are blank or hold only a `--` comment. */
  predicate IsCommentLine(line: string) {
    Trim(line) == "" || StartsWith(Trim(line), "--")
  }

  /** The number of comment and blank lines a chunk starts with. */
  function LeadingCommentLines(lines: seq<string>): (n: nat)
    ensures n <= |lines|
    ensures forall i :: 0 <= i < n ==> IsCommentLine(lines[i])
    ensures n < |lines| ==> !IsCommentLine(lines[n])
  {
    if lines != [] && IsCommentLine(lines[0]) then 1 + LeadingCommentLines(lines[1..]) else 0
  }

  function DropLeadingCommentLines(lines: seq<string>): seq<string> {
    lines[LeadingCommentLines(lines)..]
  }

  /** A chunk with its leading comment and blank lines removed, then trimmed. */
  function StripLeadingComments(chunk: string): string {
    Trim(Join(DropLeadingCommentLines(Split(chunk, '\n')), '\n'))
  }

  lemma StripKeepsSemicolonOut(chunk: string)
    requires ';' !in chunk
    ensures ';' !in StripLeadingComments(chunk)
  {
    var lines := Split(chunk, '\n');
    var kept := DropLeadingCommentLines(lines);
    SplitKeepsCharactersOut(chunk, '\n', ';');
    forall i | 0 <= i < |kept|
      ensures ';' !in kept[i]
    {
      assert kept[i] == lines[LeadingCommentLines(lines) + i];
    }
    JoinKeepsCharactersOut(kept, '\n', ';');
  }

  lemma {:induction false} JoinKeepsCharactersOut(parts: seq<string>, sep: char, c: char)
    requires c != sep && forall i :: 0 <= i < |parts| ==> c !in parts[i]
    ensures c !in Join(parts, sep)
  {
    if |parts| > 1 {
      JoinKeepsCharactersOut(parts[1..], sep, c);
    }
  }

  /** Splitting never brings in a character the string lacks. */
  lemma {:induction false} SplitKeepsCharactersOut(s: string, sep: char, c: char)
    requires c !in s
    ensures forall i :: 0 <= i < |Split(s, sep)| ==> c !in Split(s, sep)[i]
  {
    if s != [] {
      SplitKeepsCharactersOut(s[1..], sep, c);
    }
  }

  function StripAll(chunks: seq<string>): (r: seq<string>)
    ensures |r| == |chunks|
    ensures forall i :: 0 <= i < |chunks| ==> r[i] == StripLeadingComments(chunks[i])
  {
    seq(|chunks|, i requires 0 <= i < |chunks| => StripLeadingComments(chunks[i]))
  }

  /** The statements with a leading comment no longer hiding the statement behind it. */
  function Statements(sql: string): seq<string> {
    KeepStatements(StripAll(Split(sql, ';')))
  }

  /** The corrected split sends the same kind of statements as the original. */
  lemma StatementsAreStatements(sql: string)
    ensures forall s :: s in Statements(sql) ==> IsStatement(s)
  {
    var chunks := Split(sql, ';');
    var stripped := StripAll(chunks);
    forall i | 0 <= i < |chunks|
      ensures ';' !in stripped[i]
    {
      StripKeepsSemicolonOut(chunks[i]);
    }
  }

  /** The comment is skipped and the statement behind it is run. */
  lemma {:induction false} CommentedStatementIsKept(comment: string, stmt: string)
    requires StartsWith(comment, "--") && ';' !in comment && '\n' !in comment
    requires IsStatement(stmt) && '\n' !in stmt
    ensures Statements(comment + "\n" + stmt + ";") == [stmt]
  {
    var chunk := comment + "\n" + stmt;
    var sql := comment + "\n" + stmt + ";";
    assert Split(sql, ';') == [chunk, ""] by {
      SplitOneChunk(chunk);
      assert sql == chunk + ";";
    }
    StripCommentedLine(comment, stmt);
    SingleStatement(sql, chunk, stmt);
  }

  /** A text that splits into one chunk and an empty rest holds the chunk's statement. */
  lemma SingleStatement(sql: string, chunk: string, stmt: string)
    requires Split(sql, ';') == [chunk, ""]
    requires StripLeadingComments(chunk) == stmt && IsStatement(stmt)
    ensures Statements(sql) == [stmt]
  {
    var stripped := StripAll([chunk, ""]);
    StripEmpty();
    KeepStatementAndEmpty(stripped);
  }

  lemma SplitOneChunk(chunk: string)
    requires ';' !in chunk
    ensures Split(chunk + ";", ';') == [chunk, ""]
  {
    assert chunk + ";" == chunk + [';'] + "";
    SplitAfterPiece(chunk, "", ';');
  }

  /** A statement followed by an empty chunk leaves only the statement. */
  lemma KeepStatementAndEmpty(chunks: seq<string>)
    requires |chunks| == 2 && IsStatement(chunks[0]) && chunks[1] == ""
    ensures KeepStatements(chunks) == [chunks[0]]
  {
    assert chunks[1..][1..] == [];
  }

  lemma StripCommentedLine(comment: string, stmt: string)
    requires StartsWith(comment, "--") && '\n' !in comment
    requires IsStatement(stmt) && '\n' !in stmt
    ensures StripLeadingComments(comment + "\n" + stmt) == stmt
  {
    var chunk := comment + "\n" + stmt;
    assert Split(chunk, '\n') == [comment, stmt] by {
      assert chunk == comment + ['\n'] + stmt;
      SplitAfterPiece(comment, stmt, '\n');
      SplitNoSeparator(stmt, '\n');
    }
    assert IsCommentLine(comment) by {
      TrimKeepsDashes(comment);
    }
    assert !IsCommentLine(stmt) by {
      TrimOfTrimmed(stmt);
    }
    DropCommentThenStatement([comment, stmt]);
    TrimOfTrimmed(stmt);
  }

  lemma DropCommentThenStatement(lines: seq<string>)
    requires |lines| == 2 && IsCommentLine(lines[0]) && !IsCommentLine(lines[1])
    ensures DropLeadingCommentLines(lines) == [lines[1]]
  {
    assert LeadingCommentLines(lines[1..]) == 0;
  }

  lemma StripEmpty()
    ensures StripLeadingComments("") == ""
  {
    assert Split("", '\n') == [""];
    assert Trim("") == "";
    assert DropLeadingCommentLines([""]) == [];
  }

  /** Statements joined with `;` come back unchanged from `StatementsAsWritten`, the
      split the script writes. */
  lemma {:induction false} StatementsOfJoin(stmts: seq<string>)
    requires forall i :: 0 <= i < |stmts| ==> IsStatement(stmts[i])
    ensures StatementsAsWritten(Join(stmts, ';')) == stmts
  {
    if stmts == [] {
      assert Split("", ';') == [""];
      assert TrimAll([""]) == [""];
      assert KeepStatements([""]) == [];
    } else {
      SplitJoin(stmts, ';');
      TrimAllOfTrimmed(stmts);
      KeepStatementsOfStatements(stmts);
    }
  }

  lemma {:induction false} KeepStatementsOfStatements(stmts: seq<string>)
    requires forall i :: 0 <= i < |stmts| ==> IsStatement(stmts[i])
    ensures KeepStatements(stmts) == stmts
  {
    if stmts != [] {
      KeepStatementsOfStatements(stmts[1..]);
    }
  }

  // ---------------------------------------------------------------------------
  // Execution
  // ---------------------------------------------------------------------------

  /** What happens to one statement: the RPC succeeds; it fails and the REST
      fallback answers ok or not; or one of the calls throws. */
  datatype Answer = RpcOk | RpcFailed(fallbackOk: bool) | Threw

  /** The index of the first statement whose call throws, or the count when none does. */
  function FirstThrow(answers: seq<Answer>): (k: nat)
    ensures k <= |answers|
    ensures k < |answers| ==> answers[k] == Threw
    ensures forall i :: 0 <= i < k ==> answers[i] != Threw
    ensures k == |answers| <==> Threw !in answers
  {
    if answers == [] then 0 else if answers[0] == Threw then 0 else 1 + FirstThrow(answers[1..])
  }

  /** The statement loop of `executeSql`: every statement is sent with its `;`
      until a call throws; a failed RPC whose fallback also fails is only
      reported. The result is false exactly when a call throws. */
  method RunStatements(statements: seq<string>, answers: seq<Answer>)
    returns (ok: bool, sent: seq<string>, warnings: seq<nat>)
    requires |answers| == |statements|
    ensures ok <==> Threw !in answers
    ensures |sent| == if ok then |answers| else FirstThrow(answers) + 1
    ensures forall i :: 0 <= i < |sent| ==> sent[i] == statements[i] + ";"
    ensures forall i :: i in warnings <==> 0 <= i < |sent| && answers[i] == RpcFailed(false)
  {
    sent, warnings := [], [];
    var i := 0;
    while i < |statements|
      invariant 0 <= i <= |statements|
      invariant i <= FirstThrow(answers)
      invariant |sent| == i
      invariant forall j :: 0 <= j < i ==> sent[j] == statements[j] + ";"
      invariant forall j :: j in warnings <==> 0 <= j < i && answers[j] == RpcFailed(false)
    {
      sent := sent + [statements[i] + ";"];
      match answers[i] {
        case Threw =>
          ok := false;
          return;
        case RpcFailed(fallbackOk) =>
          if !fallbackOk {
            warnings := warnings + [i];
          }
        case RpcOk =>
      }
      i := i + 1;
    }
    ok := true;
  }

  /** `executeSql`: the file's statements, run by the loop above. */
  method ExecuteSql(sql: string, answers: seq<Answer>) returns (ok: bool, sent: seq<string>, warnings: seq<nat>)
    requires |answers| == |Statements(sql)|
    ensures ok <==> Threw !in answers
    ensures |sent| == if ok then |answers| else FirstThrow(answers) + 1
    ensures forall i :: 0 <= i < |sent| ==> sent[i] == Statements(sql)[i] + ";"
    ensures forall i :: i in warnings <==> 0 <= i < |sent| && answers[i] == RpcFailed(false)
  {
    var statements := Statements(sql);
    ok, sent, warnings := RunStatements(statements, answers);
  }

  /** One migration file with the answers its statements get. */
  datatype MigrationFile = MigrationFile(name: string, sql: string, answers: seq<Answer>)

  predicate WellAnswered(f: MigrationFile) {
    |f.answers| == |Statements(f.sql)|
  }

  /** How many files run without an exception. */
  function CountSucceeded(files: seq<MigrationFile>): (n: nat)
    ensures n <= |files|
  {
    if files == [] then 0
    else CountSucceeded(files[..|files| - 1]) + if Threw !in files[|files| - 1].answers then 1 else 0
  }

  lemma CountSucceededStep(files: seq<MigrationFile>, i: nat)
    requires i < |files|
    ensures CountSucceeded(files[..i + 1]) == CountSucceeded(files[..i]) + if Threw !in files[i].answers then 1 else 0
  {
    assert files[..i + 1][..i] == files[..i];
  }

  /** Every file fails exactly when each one hits an exception; every file succeeds exactly when none does. */
  lemma {:induction false} AllSucceededIff(files: seq<MigrationFile>)
    ensures CountSucceeded(files) == |files| <==> forall i :: 0 <= i < |files| ==> Threw !in files[i].answers
  {
    if files != [] {
      var init := files[..|files| - 1];
      AllSucceededIff(init);
      forall i | 0 <= i < |init|
        ensures init[i] == files[i]
      {
      }
    }
  }

  datatype Summary = AllSucceeded | SomeFailed(dashboardLink: string)

  /** `pattern` occurs in `s` starting at index `i`. */
  predicate OccursAt(s: string, pattern: string, i: int) {
    0 <= i <= |s| && pattern <= s[i..]
  }

  /** `pattern` occurs somewhere in `s`. */
  ghost predicate Occurs(s: string, pattern: string) {
    exists i :: OccursAt(s, pattern, i)
  }

  /** An occurrence in the tail of `s` is one in `s`. */
  lemma OccursInTail(s: string, pattern: string)
    requires s != []
    ensures Occurs(s[1..], pattern) ==> Occurs(s, pattern)
  {
    if Occurs(s[1..], pattern) {
      var i :| OccursAt(s[1..], pattern, i);
      assert s[1..][i..] == s[i + 1..];
      assert OccursAt(s, pattern, i + 1);
    }
  }

  /** `url.replace("https://", "https://supabase.com/dashboard/project/")`: the first occurrence only. */
  function ReplaceFirst(s: string, pattern: string, replacement: string): (r: string)
    requires pattern != ""
    ensures pattern <= s ==> r == replacement + s[|pattern|..]
    ensures !Occurs(s, pattern) ==> r == s
    decreases |s|
  {
    if pattern <= s then
      assert s[0..] == s && OccursAt(s, pattern, 0);
      replacement + s[|pattern|..]
    else if s == [] then s
    else
      OccursInTail(s, pattern);
      [s[0]] + ReplaceFirst(s[1..], pattern, replacement)
  }

  /** An occurrence at the start is the first one. */
  lemma ReplaceFirstAtStart(s: string, pattern: string, replacement: string)
    requires pattern != "" && OccursAt(s, pattern, 0)
    ensures ReplaceFirst(s, pattern, replacement) == s[..0] + replacement + s[|pattern|..]
  {
    assert s[0..] == s && s[..0] == [];
  }

  /** Without an occurrence at the start, the first character is kept. */
  lemma ReplaceFirstSkip(s: string, pattern: string, replacement: string)
    requires pattern != "" && s != [] && !OccursAt(s, pattern, 0)
    ensures ReplaceFirst(s, pattern, replacement) == [s[0]] + ReplaceFirst(s[1..], pattern, replacement)
  {
    assert s[0..] == s;
  }

  /** Wherever the first occurrence of `pattern` is, that one is replaced and the
      text around it is kept. */
  lemma {:induction false} ReplaceFirstAt(s: string, pattern: string, replacement: string, i: int)
    requires pattern != ""
    requires OccursAt(s, pattern, i)
    requires forall j :: 0 <= j < i ==> !OccursAt(s, pattern, j)
    ensures ReplaceFirst(s, pattern, replacement) == s[..i] + replacement + s[i + |pattern|..]
    decreases i
  {
    if i == 0 {
      ReplaceFirstAtStart(s, pattern, replacement);
    } else {
      OccurrencesInTail(s, pattern, i);
      ReplaceFirstAt(s[1..], pattern, replacement, i - 1);
      ReplaceFirstStep(s, pattern, replacement, i);
    }
  }

  /** The replacement in the tail, put back behind the first character. */
  lemma ReplaceFirstStep(s: string, pattern: string, replacement: string, i: int)
    requires pattern != "" && 1 <= i && i + |pattern| <= |s| && !OccursAt(s, pattern, 0)
    requires ReplaceFirst(s[1..], pattern, replacement) == s[1..][..i - 1] + replacement + s[1..][i - 1 + |pattern|..]
    ensures ReplaceFirst(s, pattern, replacement) == s[..i] + replacement + s[i + |pattern|..]
  {
    var tail := s[1..][..i - 1] + replacement + s[1..][i - 1 + |pattern|..];
    calc {
      ReplaceFirst(s, pattern, replacement);
    == { ReplaceFirstSkip(s, pattern, replacement); }
      [s[0]] + ReplaceFirst(s[1..], pattern, replacement);
    ==
      [s[0]] + tail;
    == { SpliceInTail(s, replacement, i, |pattern|); }
      s[..i] + replacement + s[i + |pattern|..];
    }
  }

  /** Positions in `s[1..]` are those of `s` shifted by one. */
  lemma OccurrencesInTail(s: string, pattern: string, i: int)
    requires 1 <= i && OccursAt(s, pattern, i)
    requires forall j :: 0 <= j < i ==> !OccursAt(s, pattern, j)
    ensures OccursAt(s[1..], pattern, i - 1)
    ensures forall j :: 0 <= j < i - 1 ==> !OccursAt(s[1..], pattern, j)
  {
    assert s[1..][i - 1..] == s[i..];
    forall j | 0 <= j < i - 1
      ensures !OccursAt(s[1..], pattern, j)
    {
      assert s[1..][j..] == s[j + 1..];
      assert !OccursAt(s, pattern, j + 1);
    }
  }

  lemma SpliceInTail(s: string, replacement: string, i: int, n: nat)
    requires 1 <= i && i + n <= |s|
    ensures [s[0]] + (s[1..][..i - 1] + replacement + s[1..][i - 1 + n..]) == s[..i] + replacement + s[i + n..]
  {
    assert s[..i] == [s[0]] + s[1..][..i - 1];
    assert s[1..][i - 1 + n..] == s[i + n..];
  }

  /** The SQL editor link offered after a failure: the project's dashboard for an
      `https://` URL, the URL itself when it holds no `https://`. */
  function DashboardLink(url: string): (link: string)
    ensures StartsWith(url, "https://") ==> link == "https://supabase.com/dashboard/project/" + url[8..] + "/sql/new"
    ensures !Occurs(url, "https://") ==> link == url + "/sql/new"
  {
    ReplaceFirst(url, "https://", "https://supabase.com/dashboard/project/") + "/sql/new"
  }

  /** One file of `runMigrations`: whether its `executeSql` call reports success. */
  method RunFile(f: MigrationFile) returns (ok: bool)
    requires WellAnswered(f)
    ensures ok <==> Threw !in f.answers
  {
    var sent, warnings;
    ok, sent, warnings := ExecuteSql(f.sql, f.answers);
  }

  /** `runMigrations`: each file in order, counted as a success or a failure. */
  method RunMigrations(url: string, files: seq<MigrationFile>)
    returns (successCount: nat, failCount: nat, summary: Summary)
    requires forall f :: f in files ==> WellAnswered(f)
    ensures successCount == CountSucceeded(files)
    ensures successCount + failCount == |files|
    ensures summary == AllSucceeded <==> failCount == 0
    ensures summary.SomeFailed? ==> summary.dashboardLink == DashboardLink(url)
  {
    successCount, failCount := 0, 0;
    var i := 0;
    while i < |files|
      invariant 0 <= i <= |files|
      invariant successCount == CountSucceeded(files[..i])
      invariant successCount + failCount == i
    {
      var f := files[i];
      assert f in files;
      var ok := RunFile(f);
      CountSucceededStep(files, i);
      if ok {
        successCount := successCount + 1;
      } else {
        failCount := failCount + 1;
      }
      i := i + 1;
    }
    assert files[..i] == files;
    summary := if failCount > 0 then SomeFailed(DashboardLink(url)) else AllSucceeded;
  }

  /** The files of the run, in the given order, each with its text and answers. */
  function FilesInOrder(order: seq<string>, contents: map<string, MigrationFile>): (files: seq<MigrationFile>)
    requires forall f :: f in order ==> f in contents && WellAnswered(contents[f])
    ensures |files| == |order|
    ensures forall i :: 0 <= i < |order| ==> files[i] == contents[order[i]]
    ensures forall f :: f in files ==> WellAnswered(f)
  {
    var files := seq(|order|, i requires 0 <= i < |order| => contents[order[i]]);
    assert forall f :: f in files ==> exists i :: 0 <= i < |order| && f == contents[order[i]];
    files
  }

  // ---------------------------------------------------------------------------
  // The script
  // ---------------------------------------------------------------------------

  datatype Mode = PrintMode | ExecuteMode

  /** `--print` or `-p` anywhere among the arguments selects print mode. */
  function ModeOf(args: seq<string>): (m: Mode)
    ensures m == PrintMode <==> exists i :: 0 <= i < |args| && args[i] in {"--print", "-p"}
  {
    if "--print" in args || "-p" in args then PrintMode else ExecuteMode
  }

  datatype ScriptOutcome =
    | Aborted
    | Printed(order: seq<string>)
    | Executed(order: seq<string>, successCount: nat, failCount: nat, summary: Summary)

  /** The whole script: read the configuration, stop without credentials, list
      the migrations, then print or run them. `contents` gives each file's text
      and answers. */
  method RunScript(envContent: string, entries: seq<string>, args: seq<string>, contents: map<string, MigrationFile>)
    returns (outcome: ScriptOutcome)
    requires forall f :: f in entries && IsSqlFile(f) ==> f in contents && WellAnswered(contents[f])
    ensures ReadConfig(EnvOf(Split(envContent, '\n'))).MissingCredentials? <==> outcome == Aborted
    ensures outcome.Printed? <==> outcome != Aborted && ModeOf(args) == PrintMode
    ensures outcome.Printed? || outcome.Executed? ==> outcome.order == MigrationOrder(entries)
    ensures outcome.Executed? ==>
      outcome.order == MigrationOrder(entries)
      && outcome.successCount == CountSucceeded(FilesInOrder(outcome.order, contents))
      && outcome.successCount + outcome.failCount == |outcome.order|
      && (outcome.summary == AllSucceeded <==> outcome.failCount == 0)
  {
    var env := LoadEnv(envContent);
    var config := ReadConfig(env);
    if config.MissingCredentials? {
      return Aborted;
    }
    var order := MigrationOrder(entries);
    if ModeOf(args) == PrintMode {
      return Printed(order);
    }
    var files := FilesInOrder(order, contents);
    var s, f, summary := RunMigrations(config.url, files);
    return Executed(order, s, f, summary);
  }
}
