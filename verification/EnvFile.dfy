/**
 The `.env` file: what setup.php writes (server/public/setup.php) and what the server reads back
 (server/src/Config.php). Characters stand for bytes.
 */
module EnvFile {
  import opened Basics

  type Env = map<string, string>

  // ---------------------------------------------------------------- PHP's string functions

  /** What trim() strips. */
  predicate Blank(c: char) {
    c == ' ' || c == '\t' || c == '\n' || c == '\r' || c == '\0' || c == '\U{0B}'
  }

  predicate AllBlank(s: string) {
    forall k | 0 <= k < |s| :: Blank(s[k])
  }

  function TrimLeft(s: string): string {
    if s != "" && Blank(s[0]) then TrimLeft(s[1..]) else s
  }

  function TrimRight(s: string): string {
    if s != "" && Blank(s[|s| - 1]) then TrimRight(s[..|s| - 1]) else s
  }

  function Trim(s: string): string {
    TrimRight(TrimLeft(s))
  }

  /** The position of the first `c`, or the length if there is none. */
  function Find(s: string, c: char): (i: nat)
    ensures i <= |s| && c !in s[..i]
    ensures i < |s| ==> s[i] == c
  {
    if s == "" || s[0] == c then 0
    else
      var i := 1 + Find(s[1..], c);
      assert s[..i] == [s[0]] + s[1..][..i - 1];
      i
  }

  /** explode('=', s, 2), the second part padded with ''. */
  function Before(s: string): string {
    s[..Find(s, '=')]
  }

  function Behind(s: string): string {
    var i := Find(s, '=');
    if i < |s| then s[i + 1..] else ""
  }

  /** str_replace() of one character. */
  function Replace(s: string, c: char, sub: string): string {
    if s == "" then "" else (if s[0] == c then sub else [s[0]]) + Replace(s[1..], c, sub)
  }

  /** strtr() with the two escapes: one pass, left to right. */
  function Unescape(s: string): string {
    if s == "" then ""
    else if |s| >= 2 && s[0] == '\\' && (s[1] == '\\' || s[1] == '"') then [s[1]] + Unescape(s[2..])
    else [s[0]] + Unescape(s[1..])
  }

  // ---------------------------------------------------------------- values

  predicate Plain(c: char) {
    || 'A' <= c <= 'Z' || 'a' <= c <= 'z' || '0' <= c <= '9'
    || c == '_' || c == '.' || c == '/' || c == ':' || c == ';' || c == '=' || c == '-' || c == '+'
  }

  function EscapeEnvValue(v: string): string {
    if forall k | 0 <= k < |v| :: Plain(v[k]) then v
    else "\"" + Replace(Replace(v, '\\', "\\\\"), '"', "\\\"") + "\""
  }

  function Unquote(v: string): string {
    if |v| >= 2 && v[0] == '"' && v[|v| - 1] == '"' then Unescape(v[1..|v| - 1]) else v
  }

  lemma {:induction false} ReplaceConcat(a: string, b: string, c: char, sub: string)
    ensures Replace(a + b, c, sub) == Replace(a, c, sub) + Replace(b, c, sub)
  {
    if a == "" {
      assert a + b == b;
    } else {
      assert (a + b)[1..] == a[1..] + b;
      ReplaceConcat(a[1..], b, c, sub);
    }
  }

  /** One pass undoes the two replacements. */
  lemma {:induction false} UnescapeUndoes(v: string)
    ensures Unescape(Replace(Replace(v, '\\', "\\\\"), '"', "\\\"")) == v
  {
    if v != "" {
      var rest := Replace(v[1..], '\\', "\\\\");
      var head := if v[0] == '\\' then "\\\\" else [v[0]];
      ReplaceConcat(head, rest, '"', "\\\"");
      var tail := Replace(rest, '"', "\\\"");
      var first := if v[0] == '\\' then "\\\\" else if v[0] == '"' then "\\\"" else [v[0]];
      assert Replace(head, '"', "\\\"") == first by {
        assert head[1..] == (if v[0] == '\\' then "\\" else "");
        assert v[0] == '\\' ==> Replace("\\", '"', "\\\"") == "\\" + Replace("", '"', "\\\"");
      }
      UnescapeUndoes(v[1..]);
      assert |first| == 2 ==> (first + tail)[2..] == tail;
      assert |first| == 1 ==> (first + tail)[1..] == tail;
    }
  }

  /** Reading a written value gives the value back, whatever it holds. */
  lemma UnquoteEscape(v: string)
    ensures Unquote(EscapeEnvValue(v)) == v
  {
    if forall k | 0 <= k < |v| :: Plain(v[k]) {
      assert |v| >= 2 ==> Plain(v[0]);
    } else {
      UnescapeUndoes(v);
      var inner := Replace(Replace(v, '\\', "\\\\"), '"', "\\\"");
      assert EscapeEnvValue(v)[1..|EscapeEnvValue(v)| - 1] == inner;
    }
  }

  /** A value of letters, digits and a few signs is written as it is; any other is written in quotes. */
  lemma QuotedUnlessPlain(v: string)
    ensures var e := EscapeEnvValue(v);
            if forall k | 0 <= k < |v| :: Plain(v[k]) then e == v else |e| >= |v| + 2 && e[0] == e[|e| - 1] == '"'
  {
    ReplaceGrows(v, '\\', "\\\\");
    ReplaceGrows(Replace(v, '\\', "\\\\"), '"', "\\\"");
  }

  /** Which characters those are, and the ones next to them. */
  lemma PlainOnes()
    ensures Plain('A') && Plain('Z') && Plain('a') && Plain('z') && Plain('0') && Plain('9')
    ensures Plain('_') && Plain('.') && Plain('/') && Plain(':') && Plain(';') && Plain('=') && Plain('-') && Plain('+')
    ensures !Plain('@') && !Plain('[') && !Plain('`') && !Plain('{') && !Plain(',') && !Plain('<')
    ensures !Plain(' ') && !Plain('"') && !Plain('\'') && !Plain('#') && !Plain('$') && !Plain('\\')
  {}

  lemma {:induction false} ReplaceGrows(s: string, c: char, sub: string)
    requires sub != ""
    ensures |Replace(s, c, sub)| >= |s|
  {
    if s != "" {
      ReplaceGrows(s[1..], c, sub);
    }
  }

  /** Quotes around a value written by hand are taken off, also when nothing is between them; without both they stay. */
  lemma QuotesComeOff(s: string)
    ensures Unquote("\"" + s + "\"") == Unescape(s)
    ensures s == "" || s[0] != '"' || s[|s| - 1] != '"' || s == "\"" ==> Unquote(s) == s
  {
    var q := "\"" + s + "\"";
    assert q[1..|q| - 1] == s;
  }

  /** Inside them a backslash stands for itself, except before a quote or another backslash. */
  lemma OtherBackslashes(c: char, s: string)
    ensures Unescape("\\" + [c] + s) == if c == '\\' || c == '"' then [c] + Unescape(s) else "\\" + Unescape([c] + s)
    ensures c != '\\' ==> Unescape([c] + s) == [c] + Unescape(s)
    ensures Unescape("") == "" && Unescape("\\") == "\\"
  {
    assert ("\\" + [c] + s)[2..] == s && ("\\" + [c] + s)[1..] == [c] + s && ([c] + s)[1..] == s;
  }

  // ---------------------------------------------------------------- trimming

  lemma {:induction false} TrimRightAppend(s: string, b: string)
    requires AllBlank(b)
    ensures TrimRight(s + b) == TrimRight(s)
  {
    if b == "" {
      assert s + b == s;
    } else {
      var n := |b| - 1;
      assert Blank(b[n]);
      assert (s + b)[..|s + b| - 1] == s + b[..n];
      TrimRightAppend(s, b[..n]);
    }
  }

  lemma {:induction false} TrimLeftPrepend(a: string, s: string)
    requires AllBlank(a)
    ensures TrimLeft(a + s) == TrimLeft(s)
  {
    if a == "" {
      assert a + s == s;
    } else {
      assert Blank(a[0]);
      assert (a + s)[1..] == a[1..] + s;
      TrimLeftPrepend(a[1..], s);
    }
  }

  lemma {:induction false} TrimLeftAppend(s: string, b: string)
    ensures TrimLeft(s) != "" ==> TrimLeft(s + b) == TrimLeft(s) + b
    ensures TrimLeft(s) == "" ==> TrimLeft(s + b) == TrimLeft(b)
  {
    if s == "" {
      assert s + b == b;
    } else if Blank(s[0]) {
      assert (s + b)[1..] == s[1..] + b;
      TrimLeftAppend(s[1..], b);
    }
  }

  /** Blanks around a text do not show after trimming. */
  lemma TrimAround(a: string, s: string, b: string)
    requires AllBlank(a) && AllBlank(b)
    ensures Trim(a + s + b) == Trim(s)
  {
    assert a + s + b == a + (s + b);
    TrimLeftPrepend(a, s + b);
    TrimLeftAppend(s, b);
    TrimRightAppend(TrimLeft(s), b);
    TrimLeftPrepend(b, "");
    assert b + "" == b;
  }

  lemma {:induction false} TrimLeftSplits(s: string) returns (a: string)
    ensures AllBlank(a) && s == a + TrimLeft(s)
    ensures TrimLeft(s) != "" ==> !Blank(TrimLeft(s)[0])
  {
    if s != "" && Blank(s[0]) {
      var rest := TrimLeftSplits(s[1..]);
      a := [s[0]] + rest;
      assert s == [s[0]] + s[1..];
    } else {
      a := "";
    }
  }

  lemma {:induction false} TrimRightSplits(s: string) returns (b: string)
    ensures AllBlank(b) && s == TrimRight(s) + b
    ensures TrimRight(s) != "" ==> !Blank(TrimRight(s)[|TrimRight(s)| - 1])
  {
    if s != "" && Blank(s[|s| - 1]) {
      var rest := TrimRightSplits(s[..|s| - 1]);
      b := rest + [s[|s| - 1]];
      assert s == s[..|s| - 1] + [s[|s| - 1]];
    } else {
      b := "";
    }
  }

  lemma TrimSplits(s: string) returns (a: string, b: string)
    ensures AllBlank(a) && AllBlank(b) && s == a + Trim(s) + b
    ensures Trim(s) != "" ==> !Blank(Trim(s)[0]) && !Blank(Trim(s)[|Trim(s)| - 1])
  {
    a := TrimLeftSplits(s);
    b := TrimRightSplits(TrimLeft(s));
    assert s == a + (Trim(s) + b) == a + Trim(s) + b;
    assert Trim(s) != "" ==> TrimLeft(s)[0] == Trim(s)[0];
  }

  lemma TrimKeeps(s: string)
    requires s != "" ==> !Blank(s[0]) && !Blank(s[|s| - 1])
    ensures Trim(s) == s
  {}

  // ---------------------------------------------------------------- one line

  /** What loadDotEnv makes of a line: a key and its value, or nothing. */
  function Setting(raw: string): Option<(string, string)> {
    var line := Trim(raw);
    if line == "" || StartsWith(line, "#") then None
    else
      var key := Trim(Before(line));
      if key == "" then None else Some((key, Unquote(Trim(Behind(line)))))
  }

  /** The key setup.php sees on a line. */
  function KeyOf(line: string): string {
    Trim(Before(line))
  }

  lemma FindUnique(s: string, c: char, i: nat)
    requires i <= |s| && c !in s[..i] && (i < |s| ==> s[i] == c)
    ensures Find(s, c) == i
  {
    var j := Find(s, c);
    forall k | 0 <= k < i ensures s[k] != c {
      assert s[..i][k] == s[k];
    }
    forall k | 0 <= k < j ensures s[k] != c {
      assert s[..j][k] == s[k];
    }
  }

  /** Blanks around a line do not change its key. */
  lemma KeyOfTrimmed(line: string)
    ensures KeyOf(line) == KeyOf(Trim(line))
  {
    var a, b := TrimSplits(line);
    var t := Trim(line);
    var i := Find(t, '=');
    assert forall k | 0 <= k < |a| :: Blank(a[k]) && a[k] != '=';
    if i < |t| {
      assert line[..|a| + i] == a + t[..i];
      FindUnique(line, '=', |a| + i);
      TrimAround(a, t[..i], "");
      assert a + t[..i] + "" == a + t[..i];
    } else {
      assert t[..i] == t;
      assert forall k | 0 <= k < |b| :: Blank(b[k]) && b[k] != '=';
      FindUnique(line, '=', |line|);
      assert line[..|line|] == line;
      TrimAround(a, t, b);
    }
  }

  /** Writer and reader see the same key on every line. */
  lemma KeyAgrees(line: string)
    ensures Setting(line).Some? ==> Setting(line).value.0 == KeyOf(line)
  {
    KeyOfTrimmed(line);
  }

  predicate KeyShaped(k: string) {
    k != "" && k[0] != '#' && '=' !in k && !Blank(k[0]) && !Blank(k[|k| - 1])
  }

  function Written(k: string, v: string): string {
    k + "=" + EscapeEnvValue(v)
  }

  lemma EscapedEnds(v: string)
    ensures var e := EscapeEnvValue(v); e != "" ==> !Blank(e[0]) && !Blank(e[|e| - 1])
  {
    if forall k | 0 <= k < |v| :: Plain(v[k]) {
      if v != "" {
        assert Plain(v[0]) && Plain(v[|v| - 1]);
      }
    }
  }

  /** A written line reads as its key and value. */
  lemma WrittenReads(k: string, v: string)
    requires KeyShaped(k)
    ensures Setting(Written(k, v)) == Some((k, v))
    ensures KeyOf(Written(k, v)) == k
  {
    var line, e := Written(k, v), EscapeEnvValue(v);
    EscapedEnds(v);
    assert line[0] == k[0];
    assert line[|line| - 1] == if e == "" then '=' else e[|e| - 1];
    TrimKeeps(line);
    assert line[..|k|] == k;
    FindUnique(line, '=', |k|);
    assert line[|k| + 1..] == e;
    TrimKeeps(k);
    TrimKeeps(e);
    UnquoteEscape(v);
  }

  /** A line written by hand reads the same with blanks around its key and its value. */
  lemma SpacedReads(a: string, k: string, b: string, c: string, v: string, d: string)
    requires AllBlank(a) && AllBlank(b) && AllBlank(c) && AllBlank(d)
    requires KeyShaped(k) && (v != "" ==> !Blank(v[0]) && !Blank(v[|v| - 1]))
    ensures Setting(a + (k + b + "=" + c + v) + d) == Some((k, Unquote(v)))
  {
    var front := k + b + "=";
    TrimAround(a, front + c + v, d);
    if v == "" {
      assert "" + front + c == front + c + v;
      TrimAround("", front, c);
      PartsRead(front, k, b, "", "");
      TrimKeeps(front);
    } else {
      PartsRead(front + c + v, k, b, c, v);
      TrimKeeps(front + c + v);
    }
  }

  /** A line without a key sets nothing, whatever stands behind the equals sign. */
  lemma NoKeyReadsNothing(a: string, b: string, v: string)
    requires AllBlank(a) && AllBlank(b)
    ensures Setting(a + b + "=" + v) == None
  {
    var line := a + b + "=" + v;
    assert forall k | 0 <= k < |a + b| :: Blank((a + b)[k]) && (a + b)[k] != '=';
    assert line[..|a + b|] == a + b;
    FindUnique(line, '=', |a + b|);
    KeyAgrees(line);
    assert "" + (a + b) + "" == a + b && a + b == (a + b) + "" + "";
    TrimAround(a + b, "", "");
    assert Trim("") == "";
    assert KeyOf(line) == "";
    SettingHasKey(line);
  }

  lemma SettingHasKey(line: string)
    ensures Setting(line).Some? ==> KeyOf(line) != ""
  {
    KeyAgrees(line);
  }

  lemma PartsRead(t: string, k: string, b: string, c: string, v: string)
    requires AllBlank(b) && AllBlank(c) && KeyShaped(k) && t == k + b + "=" + c + v
    requires v != "" ==> !Blank(v[0]) && !Blank(v[|v| - 1])
    ensures Trim(Before(t)) == k && Trim(Behind(t)) == v
  {
    assert t[..|k + b|] == k + b && forall i | 0 <= i < |b| :: Blank(b[i]) && b[i] != '=';
    FindUnique(t, '=', |k + b|);
    assert Before(t) == "" + k + b && Behind(t) == c + v + "";
    TrimAround("", k, b);
    TrimKeeps(k);
    TrimAround(c, v, "");
    TrimKeeps(v);
  }

  /** A comment says nothing, also behind blanks. */
  lemma IndentedComment(a: string, rest: string)
    requires AllBlank(a)
    ensures Setting(a + ("#" + rest)) == None
  {
    var line := "#" + rest;
    assert a + line + "" == a + line;
    TrimAround(a, line, "");
    CommentReadsNothing(line);
  }

  lemma CommentReadsNothing(line: string)
    requires StartsWith(line, "#")
    ensures Setting(line) == None
  {
    var a, b := TrimSplits(line);
    assert line[0] == '#';
    if a != "" {
      assert Blank(a[0]);
    } else if Trim(line) == "" {
      assert line[0] == b[0] && Blank(b[0]);
    } else {
      assert Trim(line)[0] == line[0];
    }
  }

  // ---------------------------------------------------------------- lines of a file

  function DropCR(s: string): string {
    if s != "" && s[|s| - 1] == '\r' then s[..|s| - 1] else s
  }

  /** file(…, FILE_IGNORE_NEW_LINES): a line break may be CR LF, the last line may lack one. */
  function Lines(content: string): seq<string>
    decreases |content|
  {
    var i := Find(content, '\n');
    if i < |content| then [DropCR(content[..i])] + Lines(content[i + 1..])
    else if content == "" then []
    else [content]
  }

  /** FILE_SKIP_EMPTY_LINES. */
  function NonEmpty(lines: seq<string>): seq<string> {
    if lines == [] then []
    else
      var n := |lines| - 1;
      NonEmpty(lines[..n]) + (if lines[n] == "" then [] else [lines[n]])
  }

  function Implode(lines: seq<string>): string {
    if lines == [] then "" else if |lines| == 1 then lines[0] else lines[0] + "\n" + Implode(lines[1..])
  }

  predicate OneLine(s: string) {
    '\n' !in s
  }

  predicate EachOneLine(lines: seq<string>) {
    forall k | 0 <= k < |lines| :: OneLine(lines[k])
  }

  function DropCRs(lines: seq<string>): seq<string> {
    seq(|lines|, k requires 0 <= k < |lines| => DropCR(lines[k]))
  }

  /** What a written file reads as, line by line. */
  lemma {:induction false} LinesOfImplode(lines: seq<string>)
    requires lines != [] && EachOneLine(lines)
    ensures Lines(Implode(lines) + "\n") == DropCRs(lines)
  {
    assert OneLine(lines[0]);
    DropCRsFront(lines);
    if |lines| == 1 {
      FirstLine(lines[0], "");
      assert Implode(lines) + "\n" == lines[0] + "\n" + "";
    } else {
      FirstLine(lines[0], Implode(lines[1..]) + "\n");
      assert Implode(lines) + "\n" == lines[0] + "\n" + (Implode(lines[1..]) + "\n");
      LinesOfImplode(lines[1..]);
    }
  }

  /** A last line without a line break is read as it is. */
  lemma {:induction false} LinesWithoutFinalBreak(lines: seq<string>, last: string)
    requires EachOneLine(lines) && OneLine(last) && last != ""
    ensures Lines(Implode(lines + [last])) == DropCRs(lines) + [last]
  {
    if lines == [] {
      assert lines + [last] == [last] && DropCRs(lines) == [];
      OpenLine(last);
    } else {
      var rest := Implode(lines[1..] + [last]);
      assert OneLine(lines[0]);
      ImplodeFront(lines, last);
      FirstLine(lines[0], rest);
      LinesWithoutFinalBreak(lines[1..], last);
      DropCRsFront(lines);
      assert [DropCR(lines[0])] + (DropCRs(lines[1..]) + [last]) == DropCRs(lines) + [last];
    }
  }

  lemma OpenLine(last: string)
    requires OneLine(last) && last != ""
    ensures Lines(last) == [last]
  {
    assert last[..|last|] == last;
    FindUnique(last, '\n', |last|);
  }

  lemma ImplodeFront(lines: seq<string>, last: string)
    requires lines != []
    ensures Implode(lines + [last]) == lines[0] + "\n" + Implode(lines[1..] + [last])
  {
    assert (lines + [last])[1..] == lines[1..] + [last];
  }

  lemma DropCRsFront(lines: seq<string>)
    requires lines != []
    ensures DropCRs(lines) == [DropCR(lines[0])] + DropCRs(lines[1..])
    ensures |lines| == 1 ==> DropCRs(lines) == [DropCR(lines[0])]
  {}

  lemma FirstLine(line: string, rest: string)
    requires OneLine(line)
    ensures Lines(line + "\n" + rest) == [DropCR(line)] + Lines(rest)
  {
    var c := line + "\n" + rest;
    assert c[..|line|] == line && c[|line| + 1..] == rest;
    FindUnique(c, '\n', |line|);
  }

  lemma {:induction false} LinesAreOneLine(content: string)
    ensures EachOneLine(Lines(content))
    decreases |content|
  {
    var i := Find(content, '\n');
    if i < |content| {
      LinesAreOneLine(content[i + 1..]);
      assert OneLine(DropCR(content[..i]));
    } else {
      assert content[..i] == content;
    }
  }

  lemma DropCRReadsTheSame(line: string)
    ensures Setting(DropCR(line)) == Setting(line)
  {
    if line != "" && line[|line| - 1] == '\r' {
      var s := line[..|line| - 1];
      assert line == "" + s + "\r";
      TrimAround("", s, "\r");
    }
  }

  // ---------------------------------------------------------------- reading

  function Apply(env: Env, setting: Option<(string, string)>): Env {
    if setting.Some? && setting.value.0 !in env then env[setting.value.0 := setting.value.1] else env
  }

  /** Settings are taken in order, and what is already set stays. */
  function Load(env: Env, lines: seq<string>): Env {
    if lines == [] then env
    else var n := |lines| - 1; Apply(Load(env, lines[..n]), Setting(lines[n]))
  }

  /** What the lines say about one key: its first setting. */
  function First(lines: seq<string>, key: string): Option<string> {
    if lines == [] then None
    else
      var n := |lines| - 1;
      var f := First(lines[..n], key);
      if f.Some? then f
      else
        var s := Setting(lines[n]);
        if s.Some? && s.value.0 == key then Some(s.value.1) else None
  }

  /** What reading a file makes of the environment. */
  function ReadFile(env: Env, file: Option<string>): Env {
    if file.None? then env else Load(env, NonEmpty(Lines(file.value)))
  }

  function Get(env: Env, key: string): Option<string> {
    if key in env then Some(env[key]) else None
  }

  lemma {:induction false} LoadIsFirst(env: Env, lines: seq<string>, key: string)
    ensures Get(Load(env, lines), key) == if key in env then Some(env[key]) else First(lines, key)
  {
    if lines != [] {
      LoadIsFirst(env, lines[..|lines| - 1], key);
    }
  }

  class Environment {
    var vars: Env

    constructor (vars: Env)
      ensures this.vars == vars
    {
      this.vars := vars;
    }

    method LoadDotEnv(file: Option<string>)
      modifies this
      ensures vars == ReadFile(old(vars), file)
    {
      if file.None? {
        return;
      }
      var lines := NonEmpty(Lines(file.value));
      for i := 0 to |lines|
        invariant vars == Load(old(vars), lines[..i])
      {
        assert lines[..i + 1][..i] == lines[..i];
        var line := Trim(lines[i]);
        if line == "" || StartsWith(line, "#") {
          continue;
        }
        var key, value := Trim(Before(line)), Unquote(Trim(Behind(line)));
        if key != "" && key !in vars {
          vars := vars[key := value];
        }
      }
      assert lines[..|lines|] == lines;
    }
  }

  // ---------------------------------------------------------------- writing

  const STAMP: string := "# Generated by setup.php"

  // The fields of the form, as posted.
  datatype Form = Form(dsn: string, user: string, password: string, logLevel: string, audit: string, ttl: string,
                       basePath: string)

  // A managed key and its new value. An optional one is left out when its value is empty.
  datatype Field = Field(key: string, value: string, optional: bool)

  /** Only the password keeps its surrounding blanks; only the base path is optional. */
  function Managed(f: Form): seq<Field> {
    [Field("DATABASE_URL", Trim(f.dsn), false), Field("DATABASE_USER", Trim(f.user), false),
     Field("DATABASE_PASSWORD", f.password, false), Field("LOG_LEVEL", Trim(f.logLevel), false),
     Field("AUDIT_RETENTION_DAYS", Trim(f.audit), false),
     Field("ENROLLMENT_TOKEN_TTL_HOURS", Trim(f.ttl), false), Field("APP_BASE_PATH", Trim(f.basePath), true)]
  }

  predicate IsManaged(fields: seq<Field>, key: string) {
    exists i :: 0 <= i < |fields| && fields[i].key == key
  }

  predicate Breaks(v: string) {
    '\r' in v || '\n' in v
  }

  predicate Refused(fields: seq<Field>) {
    exists i :: 0 <= i < |fields| && Breaks(fields[i].value)
  }

  predicate Stays(fields: seq<Field>, line: string) {
    !StartsWith(line, STAMP) && !IsManaged(fields, KeyOf(line))
  }

  function Kept(fields: seq<Field>, lines: seq<string>): seq<string> {
    if lines == [] then []
    else
      var n := |lines| - 1;
      Kept(fields, lines[..n]) + (if Stays(fields, lines[n]) then [lines[n]] else [])
  }

  predicate Omitted(f: Field) {
    f.optional && f.value == ""
  }

  function Settings(fields: seq<Field>): seq<string> {
    if fields == [] then []
    else
      var n := |fields| - 1;
      Settings(fields[..n]) + (if Omitted(fields[n]) then [] else [Written(fields[n].key, fields[n].value)])
  }

  function KeptOf(fields: seq<Field>, before: Option<string>): seq<string> {
    if before.None? then [] else Kept(fields, Lines(before.value))
  }

  function SavedLines(before: Option<string>, date: string, fields: seq<Field>): seq<string> {
    [STAMP + " on " + date] + KeptOf(fields, before) + Settings(fields)
  }

  function Saved(before: Option<string>, date: string, fields: seq<Field>): string {
    Implode(SavedLines(before, date, fields)) + "\n"
  }

  // The database does not answer, the temporary file cannot be written, or it cannot be renamed.
  datatype Disk = Disk(connects: bool, writes: bool, renames: bool)

  class EnvStore {
    var content: Option<string>

    constructor ()
      ensures content == None
    {
      content := None;
    }

    method SaveEnv(f: Form, date: string, disk: Disk) returns (ok: bool)
      modifies this
      ensures ok == (!Refused(Managed(f)) && disk.connects && disk.writes && disk.renames)
      ensures content == if ok then Some(Saved(old(content), date, Managed(f))) else old(content)
    {
      var managed := Managed(f);
      for i := 0 to |managed|
        invariant forall k | 0 <= k < i :: !Breaks(managed[k].value)
      {
        if Breaks(managed[i].value) {
          return false;
        }
      }
      if !disk.connects {
        return false;
      }
      var lines := Rewrite(content, date, managed);
      if !disk.writes || !disk.renames {
        return false;
      }
      content := Some(Implode(lines) + "\n");
      return true;
    }
  }

  method Rewrite(before: Option<string>, date: string, managed: seq<Field>) returns (lines: seq<string>)
    ensures lines == SavedLines(before, date, managed)
  {
    lines := [STAMP + " on " + date];
    if before.Some? {
      var present := Lines(before.value);
      for i := 0 to |present|
        invariant lines == [STAMP + " on " + date] + Kept(managed, present[..i])
      {
        assert present[..i + 1][..i] == present[..i];
        if StartsWith(present[i], STAMP) {
          continue;
        }
        if !IsManaged(managed, Trim(Before(present[i]))) {
          lines := lines + [present[i]];
        }
      }
      assert present[..|present|] == present;
    }
    ghost var front := lines;
    for i := 0 to |managed|
      invariant lines == front + Settings(managed[..i])
    {
      assert managed[..i + 1][..i] == managed[..i];
      if managed[i].optional && managed[i].value == "" {
        continue;
      }
      lines := lines + [managed[i].key + "=" + EscapeEnvValue(managed[i].value)];
    }
    assert managed[..|managed|] == managed;
  }

  // ---------------------------------------------------------------- the round trip

  lemma {:induction false} FirstConcat(a: seq<string>, b: seq<string>, key: string)
    ensures First(a + b, key) == if First(a, key).Some? then First(a, key) else First(b, key)
  {
    if b == [] {
      assert a + b == a;
    } else {
      assert (a + b)[..|a + b| - 1] == a + b[..|b| - 1];
      FirstConcat(a, b[..|b| - 1], key);
    }
  }

  lemma {:induction false} FirstSkipsEmpty(lines: seq<string>, key: string)
    ensures First(NonEmpty(lines), key) == First(lines, key)
  {
    if lines != [] {
      var n := |lines| - 1;
      FirstSkipsEmpty(lines[..n], key);
      if lines[n] == "" {
        assert NonEmpty(lines) == NonEmpty(lines[..n]);
      } else {
        assert NonEmpty(lines)[..|NonEmpty(lines)| - 1] == NonEmpty(lines[..n]);
      }
    }
  }

  lemma {:induction false} FirstDropCRs(lines: seq<string>, key: string)
    ensures First(DropCRs(lines), key) == First(lines, key)
  {
    if lines != [] {
      var n := |lines| - 1;
      FirstDropCRs(lines[..n], key);
      assert DropCRs(lines)[..n] == DropCRs(lines[..n]);
      DropCRReadsTheSame(lines[n]);
    }
  }

  /** The kept lines say nothing about managed keys, and all there was to say about the others. */
  lemma {:induction false} FirstOfKept(fields: seq<Field>, lines: seq<string>, key: string)
    ensures First(Kept(fields, lines), key) == if IsManaged(fields, key) then None else First(lines, key)
  {
    if lines != [] {
      var n := |lines| - 1;
      FirstOfKept(fields, lines[..n], key);
      KeyAgrees(lines[n]);
      var front := Kept(fields, lines[..n]);
      if Stays(fields, lines[n]) {
        FirstConcat(front, [lines[n]], key);
        FirstOfOne(lines[n], key);
      } else {
        assert Kept(fields, lines) == front;
        StampReadsNothing(lines[n]);
      }
    }
  }

  lemma FirstOfOne(line: string, key: string)
    ensures First([line], key)
         == var s := Setting(line); if s.Some? && s.value.0 == key then Some(s.value.1) else None
  {
    assert [line][..0] == [];
  }

  lemma StampReadsNothing(line: string)
    ensures StartsWith(line, STAMP) ==> Setting(line) == None
  {
    if StartsWith(line, STAMP) {
      assert line[0] == STAMP[0];
      CommentReadsNothing(line);
    }
  }

  predicate ShapedKeys(fields: seq<Field>) {
    && (forall i | 0 <= i < |fields| :: KeyShaped(fields[i].key) && OneLine(fields[i].key))
    && (forall i, j :: 0 <= i < j < |fields| ==> fields[i].key != fields[j].key)
  }

  /** The value a save gives a key, if it sets one. */
  function Assigned(fields: seq<Field>, key: string): Option<string> {
    if fields == [] then None
    else
      var n := |fields| - 1;
      if fields[n].key == key && !Omitted(fields[n]) then Some(fields[n].value) else Assigned(fields[..n], key)
  }

  lemma {:induction false} AssignedIsManaged(fields: seq<Field>, key: string)
    ensures Assigned(fields, key).Some? ==> IsManaged(fields, key)
  {
    if fields != [] {
      AssignedIsManaged(fields[..|fields| - 1], key);
    }
  }

  /** Each field gives its key its value, whatever the others are. */
  lemma {:induction false} AssignedIs(fields: seq<Field>, i: nat)
    requires ShapedKeys(fields) && i < |fields|
    ensures Assigned(fields, fields[i].key) == if Omitted(fields[i]) then None else Some(fields[i].value)
  {
    var n := |fields| - 1;
    if i < n {
      AssignedIs(fields[..n], i);
    } else {
      AssignedIsManaged(fields[..n], fields[n].key);
    }
  }

  lemma FirstOfLast(lines: seq<string>, k: string, v: string, key: string)
    requires KeyShaped(k)
    ensures First(lines + [Written(k, v)], key)
         == if First(lines, key).Some? then First(lines, key) else if k == key then Some(v) else None
  {
    WrittenReads(k, v);
    assert (lines + [Written(k, v)])[..|lines|] == lines;
  }

  lemma {:induction false} FirstOfSettings(fields: seq<Field>, key: string)
    requires ShapedKeys(fields)
    ensures First(Settings(fields), key) == Assigned(fields, key)
  {
    if fields != [] {
      var n := |fields| - 1;
      FirstOfSettings(fields[..n], key);
      if Omitted(fields[n]) {
        assert Settings(fields) == Settings(fields[..n]);
      } else {
        FirstOfLast(Settings(fields[..n]), fields[n].key, fields[n].value, key);
        AssignedIsManaged(fields[..n], key);
      }
    }
  }

  predicate UsableKey(k: string) {
    KeyShaped(k) && OneLine(k)
  }

  lemma UsableKeys1()
    ensures UsableKey("DATABASE_URL") && UsableKey("DATABASE_USER") && UsableKey("DATABASE_PASSWORD")
  {}

  lemma UsableKeys2()
    ensures UsableKey("LOG_LEVEL") && UsableKey("AUDIT_RETENTION_DAYS")
  {}

  lemma UsableKeys3()
    ensures UsableKey("ENROLLMENT_TOKEN_TTL_HOURS") && UsableKey("APP_BASE_PATH")
  {}

  /** Keys of different length, or with different first letters, are different. */
  predicate Apart(a: string, b: string) {
    |a| != |b| || (a != "" && a[0] != b[0])
  }

  lemma ManagedKeysApart(f: Form)
    ensures var m := Managed(f); forall i, j :: 0 <= i < j < |m| ==> Apart(m[i].key, m[j].key)
  {}

  lemma ManagedKeys(f: Form)
    ensures ShapedKeys(Managed(f))
  {
    UsableKeys1();
    UsableKeys2();
    UsableKeys3();
    ManagedKeysApart(f);
    var m := Managed(f);
    forall i | 0 <= i < |m| ensures UsableKey(m[i].key) {
    }
    forall i, j | 0 <= i < j < |m| ensures m[i].key != m[j].key {
      assert Apart(m[i].key, m[j].key);
    }
  }

  lemma {:induction false} KeptAreOneLine(fields: seq<Field>, lines: seq<string>)
    requires EachOneLine(lines)
    ensures EachOneLine(Kept(fields, lines))
  {
    if lines != [] {
      KeptAreOneLine(fields, lines[..|lines| - 1]);
    }
  }

  lemma {:induction false} ReplaceAddsNoBreak(s: string, c: char, sub: string)
    requires OneLine(s) && OneLine(sub)
    ensures OneLine(Replace(s, c, sub))
  {
    if s != "" {
      ReplaceAddsNoBreak(s[1..], c, sub);
    }
  }

  lemma WrittenIsOneLine(k: string, v: string)
    requires OneLine(k) && OneLine(v)
    ensures OneLine(Written(k, v))
  {
    ReplaceAddsNoBreak(v, '\\', "\\\\");
    ReplaceAddsNoBreak(Replace(v, '\\', "\\\\"), '"', "\\\"");
  }

  lemma {:induction false} SettingsAreOneLine(fields: seq<Field>)
    requires ShapedKeys(fields) && !Refused(fields)
    ensures EachOneLine(Settings(fields))
  {
    if fields != [] {
      var n := |fields| - 1;
      SettingsAreOneLine(fields[..n]);
      WrittenIsOneLine(fields[n].key, fields[n].value);
    }
  }

  lemma KeptOfIsOneLine(fields: seq<Field>, before: Option<string>)
    ensures EachOneLine(KeptOf(fields, before))
  {
    if before.Some? {
      LinesAreOneLine(before.value);
      KeptAreOneLine(fields, Lines(before.value));
    }
  }

  /** The saved file, read line by line. */
  lemma SavedFileLines(before: Option<string>, date: string, fields: seq<Field>)
    requires ShapedKeys(fields) && !Refused(fields) && OneLine(date)
    ensures Lines(Saved(before, date, fields)) == DropCRs(SavedLines(before, date, fields))
  {
    SettingsAreOneLine(fields);
    KeptOfIsOneLine(fields, before);
    assert OneLine(STAMP + " on " + date);
    LinesOfImplode(SavedLines(before, date, fields));
  }

  lemma ReadFileIsFirst(env: Env, content: string, key: string)
    ensures Get(ReadFile(env, Some(content)), key) == if key in env then Some(env[key]) else First(Lines(content), key)
  {
    LoadIsFirst(env, NonEmpty(Lines(content)), key);
    FirstSkipsEmpty(Lines(content), key);
  }

  lemma FirstOfStamp(date: string, key: string)
    ensures First([STAMP + " on " + date], key) == None
  {
    var line := STAMP + " on " + date;
    assert line[0] == STAMP[0];
    CommentReadsNothing(line);
    assert [line][..0] == [];
  }

  lemma FirstOfSaved(before: Option<string>, date: string, fields: seq<Field>, key: string)
    requires ShapedKeys(fields) && !Refused(fields) && OneLine(date)
    ensures First(Lines(Saved(before, date, fields)), key)
         == if IsManaged(fields, key) then Assigned(fields, key)
            else if before.None? then None
            else First(Lines(before.value), key)
  {
    var head, kept := [STAMP + " on " + date], KeptOf(fields, before);
    SavedFileLines(before, date, fields);
    FirstDropCRs(SavedLines(before, date, fields), key);
    FirstConcat(head + kept, Settings(fields), key);
    FirstConcat(head, kept, key);
    FirstOfStamp(date, key);
    FirstOfSettings(fields, key);
    AssignedIsManaged(fields, key);
    if before.Some? {
      FirstOfKept(fields, Lines(before.value), key);
    }
  }

  /**
   Reading a saved file: every managed key has the value of the form, every other key the value it had
   before the file was rewritten, and what the environment already set wins as ever.
   */
  lemma SavedReadsBack(env: Env, before: Option<string>, date: string, f: Form, key: string)
    requires !Refused(Managed(f)) && OneLine(date)
    ensures Get(ReadFile(env, Some(Saved(before, date, Managed(f)))), key)
         == if key in env then Some(env[key])
            else if IsManaged(Managed(f), key) then Assigned(Managed(f), key)
            else Get(ReadFile(env, before), key)
  {
    var fields := Managed(f);
    ManagedKeys(f);
    ReadBack(env, before, date, fields, key);
  }

  /** Each field of the form comes back under its own key, trimmed unless it is the password; an empty base path does not. */
  lemma FormReadsBack(env: Env, before: Option<string>, date: string, f: Form)
    requires !Refused(Managed(f)) && OneLine(date) && forall key | IsManaged(Managed(f), key) :: key !in env
    ensures var u := ReadFile(env, Some(Saved(before, date, Managed(f))));
            && Get(u, "DATABASE_URL") == Some(Trim(f.dsn)) && Get(u, "DATABASE_USER") == Some(Trim(f.user))
            && Get(u, "DATABASE_PASSWORD") == Some(f.password) && Get(u, "LOG_LEVEL") == Some(Trim(f.logLevel))
            && Get(u, "AUDIT_RETENTION_DAYS") == Some(Trim(f.audit))
            && Get(u, "ENROLLMENT_TOKEN_TTL_HOURS") == Some(Trim(f.ttl))
            && Get(u, "APP_BASE_PATH") == if Trim(f.basePath) == "" then None else Some(Trim(f.basePath))
  {
    var m := Managed(f);
    ManagedKeys(f);
    forall i | 0 <= i < |m|
      ensures Get(ReadFile(env, Some(Saved(before, date, m))), m[i].key) == if Omitted(m[i]) then None else Some(m[i].value)
    {
      assert IsManaged(m, m[i].key);
      SavedReadsBack(env, before, date, f, m[i].key);
      AssignedIs(m, i);
    }
    assert m[0].key == "DATABASE_URL" && m[1].key == "DATABASE_USER" && m[2].key == "DATABASE_PASSWORD";
    assert m[3].key == "LOG_LEVEL" && m[4].key == "AUDIT_RETENTION_DAYS";
    assert m[5].key == "ENROLLMENT_TOKEN_TTL_HOURS" && m[6].key == "APP_BASE_PATH";
  }

  lemma ReadBack(env: Env, before: Option<string>, date: string, fields: seq<Field>, key: string)
    requires ShapedKeys(fields) && !Refused(fields) && OneLine(date)
    ensures Get(ReadFile(env, Some(Saved(before, date, fields))), key)
         == if key in env then Some(env[key])
            else if IsManaged(fields, key) then Assigned(fields, key)
            else Get(ReadFile(env, before), key)
  {
    FirstOfSaved(before, date, fields, key);
    ReadFileIsFirst(env, Saved(before, date, fields), key);
    if before.Some? {
      ReadFileIsFirst(env, before.value, key);
    }
  }

  /**
   A file edited by hand, whose last line lacks a line break. That line counts like any other: if it sets a key that
   nothing sets before, the key gets its value; and it still does after a save, unless the key is managed.
   */
  lemma LastLineCounts(env: Env, lines: seq<string>, last: string, key: string, v: string, date: string, f: Form)
    requires EachOneLine(lines) && OneLine(last) && Setting(last) == Some((key, v))
    requires key !in env && First(lines, key) == None
    ensures var file := Some(Implode(lines + [last]));
            && Get(ReadFile(env, file), key) == Some(v)
            && (!Refused(Managed(f)) && OneLine(date) && !IsManaged(Managed(f), key) ==>
                  Get(ReadFile(env, Some(Saved(file, date, Managed(f)))), key) == Some(v))
  {
    var file := Implode(lines + [last]);
    LinesWithoutFinalBreak(lines, last);
    ReadFileIsFirst(env, file, key);
    FirstDropCRs(lines, key);
    FirstConcat(DropCRs(lines), [last], key);
    FirstOfOne(last, key);
    if !Refused(Managed(f)) && OneLine(date) {
      SavedReadsBack(env, Some(file), date, f, key);
    }
  }

  // ---------------------------------------------------------------- unmanaged lines

  /** A line is dropped exactly if it is an earlier stamp or sets a managed key. */
  lemma StaysIff(fields: seq<Field>, line: string)
    requires ShapedKeys(fields)
    ensures Stays(fields, line)
       <==> !StartsWith(line, STAMP) && !(Setting(line).Some? && IsManaged(fields, Setting(line).value.0))
  {
    KeyAgrees(line);
    if Setting(line).None? && IsManaged(fields, KeyOf(line)) {
      var i :| 0 <= i < |fields| && fields[i].key == KeyOf(line);
      NoSettingNoKey(line);
    }
  }

  lemma NoSettingNoKey(line: string)
    requires Setting(line).None?
    ensures !KeyShaped(KeyOf(line))
  {
    var a, b := TrimSplits(line);
    var t := Trim(line);
    if t == "" {
      assert "" + line + "" == line && a + "" + b == line;
      BlankHasNoKey(line);
    } else {
      var i := Find(t, '=');
      KeyOfTrimmed(line);
      if t[0] == '#' {
        TrimStart(t[..i]);
      }
    }
  }

  lemma BlankHasNoKey(line: string)
    requires Trim(line) == ""
    ensures KeyOf(line) == ""
  {
    KeyOfTrimmed(line);
  }

  lemma TrimStart(s: string)
    ensures s != "" && !Blank(s[0]) ==> Trim(s) != "" && Trim(s)[0] == s[0]
  {
    if s != "" && !Blank(s[0]) {
      var b := TrimRightSplits(s);
      assert TrimLeft(s) == s && (TrimRight(s) == "" ==> s == b);
    }
  }

  /** Of the lines before, a save keeps those, all of them and in order: any line stands or falls by itself. */
  lemma EachLineKeptIff(fields: seq<Field>, a: seq<string>, line: string, b: seq<string>)
    requires ShapedKeys(fields)
    ensures Kept(fields, a + [line] + b)
         == Kept(fields, a)
            + (if StartsWith(line, STAMP) || (Setting(line).Some? && IsManaged(fields, Setting(line).value.0)) then [] else [line])
            + Kept(fields, b)
  {
    KeptConcat(fields, a + [line], b);
    KeptConcat(fields, a, [line]);
    StaysIff(fields, line);
    assert [line][..0] == [];
  }

  predicate NoTrailingCR(lines: seq<string>) {
    forall i | 0 <= i < |lines| :: DropCR(lines[i]) == lines[i]
  }

  predicate AllStay(fields: seq<Field>, lines: seq<string>) {
    forall i | 0 <= i < |lines| :: Stays(fields, lines[i])
  }

  lemma {:induction false} KeptStay(fields: seq<Field>, lines: seq<string>)
    ensures AllStay(fields, Kept(fields, lines))
  {
    if lines != [] {
      KeptStay(fields, lines[..|lines| - 1]);
    }
  }

  lemma {:induction false} KeptConcat(fields: seq<Field>, a: seq<string>, b: seq<string>)
    ensures Kept(fields, a + b) == Kept(fields, a) + Kept(fields, b)
  {
    if b == [] {
      assert a + b == a;
    } else {
      assert (a + b)[..|a + b| - 1] == a + b[..|b| - 1];
      KeptConcat(fields, a, b[..|b| - 1]);
    }
  }

  lemma {:induction false} NoneKept(fields: seq<Field>, lines: seq<string>)
    requires forall i | 0 <= i < |lines| :: !Stays(fields, lines[i])
    ensures Kept(fields, lines) == []
  {
    if lines != [] {
      NoneKept(fields, lines[..|lines| - 1]);
    }
  }

  /** A save replaces every line it writes at the next save, and none of them ends in a CR. */
  lemma {:induction false} SettingsAreReplaced(all: seq<Field>, fields: seq<Field>)
    requires ShapedKeys(fields) && forall i | 0 <= i < |fields| :: IsManaged(all, fields[i].key)
    ensures forall i | 0 <= i < |Settings(fields)| :: !Stays(all, Settings(fields)[i])
    ensures NoTrailingCR(Settings(fields))
  {
    if fields != [] {
      var n := |fields| - 1;
      SettingsAreReplaced(all, fields[..n]);
      SettingIsReplaced(all, fields[n].key, fields[n].value);
    }
  }

  lemma SettingIsReplaced(all: seq<Field>, k: string, v: string)
    requires KeyShaped(k) && IsManaged(all, k)
    ensures !Stays(all, Written(k, v)) && DropCR(Written(k, v)) == Written(k, v)
  {
    WrittenReads(k, v);
    WrittenEnds(k, v);
  }

  lemma WrittenEnds(k: string, v: string)
    ensures DropCR(Written(k, v)) == Written(k, v)
  {
    EscapedEnds(v);
    var line, e := Written(k, v), EscapeEnvValue(v);
    assert line[|line| - 1] == if e == "" then '=' else e[|e| - 1];
  }

  lemma DropCRKeepsKey(line: string)
    ensures KeyOf(DropCR(line)) == KeyOf(line)
  {
    if line != "" && line[|line| - 1] == '\r' {
      var s := line[..|line| - 1];
      var i := Find(s, '=');
      if i < |s| {
        assert line[..i] == s[..i];
        FindUnique(line, '=', i);
      } else {
        assert line == s + "\r" && s[..i] == s;
        FindUnique(line, '=', |line|);
        assert line[..|line|] == line;
        TrimAround("", s, "\r");
        assert "" + s + "\r" == line;
      }
    }
  }

  lemma {:induction false} StayWithoutCR(fields: seq<Field>, lines: seq<string>)
    requires AllStay(fields, lines)
    ensures Kept(fields, DropCRs(lines)) == DropCRs(lines)
  {
    if lines != [] {
      var n := |lines| - 1;
      StayWithoutCR(fields, lines[..n]);
      assert DropCRs(lines) == DropCRs(lines[..n]) + [DropCR(lines[n])];
      assert DropCRs(lines)[..n] == DropCRs(lines[..n]);
      assert Stays(fields, lines[n]);
      DropCRKeepsKey(lines[n]);
      if StartsWith(DropCR(lines[n]), STAMP) {
        assert StartsWith(lines[n], STAMP);
      }
    }
  }

  lemma DropCRsConcat(a: seq<string>, b: seq<string>)
    ensures DropCRs(a + b) == DropCRs(a) + DropCRs(b)
  {}

  lemma StampIsReplaced(fields: seq<Field>, date: string)
    ensures Kept(fields, DropCRs([STAMP + " on " + date])) == []
  {
    var line := STAMP + " on " + date;
    assert StartsWith(DropCR(line), STAMP) by {
      assert |DropCR(line)| >= |STAMP| && DropCR(line)[..|STAMP|] == STAMP;
    }
    NoneKept(fields, DropCRs([line]));
  }

  /** What the next save will find to keep: the same lines, each without a CR at its end. */
  lemma KeptOfSaved(before: Option<string>, date: string, fields: seq<Field>)
    requires ShapedKeys(fields) && !Refused(fields) && OneLine(date)
    ensures Kept(fields, Lines(Saved(before, date, fields))) == DropCRs(KeptOf(fields, before))
  {
    var kept, head, tail := KeptOf(fields, before), [STAMP + " on " + date], Settings(fields);
    SavedFileLines(before, date, fields);
    DropCRsConcat(head + kept, tail);
    DropCRsConcat(head, kept);
    KeptConcat(fields, DropCRs(head + kept), DropCRs(tail));
    KeptConcat(fields, DropCRs(head), DropCRs(kept));
    StampIsReplaced(fields, date);
    NoSettingKept(fields);
    KeptOfStays(fields, before);
    StayWithoutCR(fields, kept);
  }

  lemma NoSettingKept(fields: seq<Field>)
    requires ShapedKeys(fields)
    ensures Kept(fields, DropCRs(Settings(fields))) == []
  {
    SettingsAreReplaced(fields, fields);
    assert DropCRs(Settings(fields)) == Settings(fields);
    NoneKept(fields, Settings(fields));
  }

  lemma KeptOfStays(fields: seq<Field>, before: Option<string>)
    ensures AllStay(fields, KeptOf(fields, before))
  {
    if before.Some? {
      KeptStay(fields, Lines(before.value));
    }
  }

  /**
   The rewritten file holds the unmanaged lines unchanged and in order exactly when none of them ends in a
   stray CR: the writer ends lines with LF, so the reader takes such a CR as part of the line break.
   */
  lemma UnmanagedLinesKept(before: string, date: string, f: Form)
    requires !Refused(Managed(f)) && OneLine(date)
    ensures var kept := Kept(Managed(f), Lines(before));
            Kept(Managed(f), Lines(Saved(Some(before), date, Managed(f)))) == kept <==> NoTrailingCR(kept)
  {
    var fields := Managed(f);
    var kept := Kept(fields, Lines(before));
    ManagedKeys(f);
    KeptOfSaved(Some(before), date, fields);
    DropCRsSame(kept);
  }

  lemma DropCRsSame(lines: seq<string>)
    ensures DropCRs(lines) == lines <==> NoTrailingCR(lines)
  {
    if DropCRs(lines) == lines {
      forall i | 0 <= i < |lines| ensures DropCR(lines[i]) == lines[i] {
        assert DropCRs(lines)[i] == lines[i];
      }
    }
  }

  /** Saving the same form again changes nothing but the date. */
  lemma SavingAgain(before: string, date: string, date': string, f: Form)
    requires !Refused(Managed(f)) && OneLine(date) && NoTrailingCR(Kept(Managed(f), Lines(before)))
    ensures Saved(Some(Saved(Some(before), date, Managed(f))), date', Managed(f)) == Saved(Some(before), date', Managed(f))
  {
    UnmanagedLinesKept(before, date, f);
  }

  /** The witness: a line that ends in CR CR LF comes back without its second CR. */
  lemma StrayCRIsLost(before: string, date: string, f: Form)
    requires before == "X=1\r\r\n" && !Refused(Managed(f)) && OneLine(date)
    ensures Kept(Managed(f), Lines(before)) == ["X=1\r"]
    ensures Kept(Managed(f), Lines(Saved(Some(before), date, Managed(f)))) == ["X=1"]
  {
    LinesWithStrayCR(before);
    UnmanagedX(f);
    KeptAlone(Managed(f), "X=1\r");
    ManagedKeys(f);
    KeptOfSaved(Some(before), date, Managed(f));
    assert "X=1\r"[..3] == "X=1" && DropCR("X=1\r") == "X=1";
  }

  lemma LinesWithStrayCR(before: string)
    requires before == "X=1\r\r\n"
    ensures Lines(before) == ["X=1\r"]
  {
    FirstLine("X=1\r\r", "");
    assert "X=1\r\r" + "\n" + "" == before;
    assert "X=1\r\r"[..4] == "X=1\r" && DropCR("X=1\r\r") == "X=1\r";
    assert Lines("") == [];
  }

  lemma KeptAlone(fields: seq<Field>, line: string)
    requires Stays(fields, line)
    ensures Kept(fields, [line]) == [line]
  {
    assert [line][..0] == [];
  }

  lemma UnmanagedX(f: Form)
    ensures Stays(Managed(f), "X=1\r")
  {
    var line := "X=1\r";
    assert line[..1] == "X";
    FindUnique(line, '=', 1);
    TrimKeeps("X");
    ManagedAreLong(f);
  }

  lemma ManagedAreLong(f: Form)
    ensures forall i | 0 <= i < |Managed(f)| :: |Managed(f)[i].key| > 1
  {}
}
