/**
 * Ruby string operations used by the renderer, written out as explicit
 * functions. Each regular-expression heuristic of the source gets its own
 * predicate or rewriting function here.
 */
module Text {
  import opened Results

  const LF: string := "\n"
  /** The processor's indent level, `@indent_lvl`. */
  const IndentUnit: string := "  "

  /** Ruby's `\s`: space, tab, newline, vertical tab, form feed, carriage return. */
  predicate IsSpace(ch: char) {
    ch == ' ' || ch == '\t' || ch == '\n' || ch == '\U{000B}' || ch == '\U{000C}' || ch == '\r'
  }

  predicate StartsWith(s: string, p: string) {
    |p| <= |s| && s[..|p|] == p
  }

  predicate EndsWith(s: string, p: string) {
    |p| <= |s| && s[|s| - |p|..] == p
  }

  /** `s =~ /p/` for a literal pattern `p`. */
  predicate Contains(s: string, p: string)
    decreases |s|
  {
    StartsWith(s, p) || (|s| > 0 && Contains(s[1..], p))
  }

  /** `s =~ /(^|\n)w/`: some line of `s` starts with `w`. */
  predicate LineStartsWith(s: string, w: string) {
    StartsWith(s, w) || Contains(s, "\n" + w)
  }

  /** Every character is whitespace: `s =~ /\A\s*\Z/`. */
  predicate AllSpace(s: string) {
    forall i :: 0 <= i < |s| ==> IsSpace(s[i])
  }

  /** Interpolating a value that may be nil (`"#{x}"`): nil reads as "". */
  function Interp(o: Option<string>): (r: string)
    ensures o.Some? ==> r == o.value
    ensures o.None? ==> r == ""
  {
    if o.Some? then o.value else ""
  }

  /** `parts.join(sep)`. */
  function Join(parts: seq<string>, sep: string): string
    decreases |parts|
  {
    if |parts| == 0 then ""
    else if |parts| == 1 then parts[0]
    else parts[0] + sep + Join(parts[1..], sep)
  }

  /** Spaces(n) is `" " * n`. */
  function Spaces(n: nat): (r: string)
    ensures |r| == n && forall i :: 0 <= i < n ==> r[i] == ' '
  {
    if n == 0 then "" else Spaces(n - 1) + " "
  }

  /** Splitting on every "\n", keeping every field, even empty trailing ones. */
  function Fields(s: string): (f: seq<string>)
    ensures |f| >= 1
    decreases |s|
  {
    if |s| == 0 then [""]
    else
      var rest := Fields(s[1..]);
      if s[0] == '\n' then [""] + rest
      else [[s[0]] + rest[0]] + rest[1..]
  }

  function DropTrailingEmpty(f: seq<string>): (r: seq<string>)
    ensures |r| <= |f| && r == f[..|r|]
    ensures |r| > 0 ==> r[|r| - 1] != ""
    decreases |f|
  {
    if |f| > 0 && f[|f| - 1] == "" then DropTrailingEmpty(f[..|f| - 1]) else f
  }

  /** `s.split(/\n/)`: trailing empty fields are dropped, so "" gives []. */
  function SplitLines(s: string): seq<string> {
    DropTrailingEmpty(Fields(s))
  }

  function PrefixEach(lines: seq<string>, p: string): (r: seq<string>)
    ensures |r| == |lines|
    ensures forall i :: 0 <= i < |r| ==> r[i] == p + lines[i]
    decreases |lines|
  {
    if |lines| == 0 then [] else [p + lines[0]] + PrefixEach(lines[1..], p)
  }

  /** `Processor#indent`: `s.to_s.split(/\n/).map { |l| "  " + l }.join("\n")`. */
  function Indent(s: string): string {
    Join(PrefixEach(SplitLines(s), IndentUnit), LF)
  }

  /** `String#chomp` with no argument. */
  function Chomp(s: string): (r: string)
    ensures |r| <= |s| && r == s[..|r|]
  {
    if EndsWith(s, "\r\n") then s[..|s| - 2]
    else if EndsWith(s, "\n") || EndsWith(s, "\r") then s[..|s| - 1]
    else s
  }

  function LStrip(s: string): (r: string)
    ensures |r| <= |s| && r == s[|s| - |r|..]
    ensures |r| > 0 ==> !IsSpace(r[0])
    decreases |s|
  {
    if |s| > 0 && IsSpace(s[0]) then LStrip(s[1..]) else s
  }

  function RStrip(s: string): (r: string)
    ensures |r| <= |s| && r == s[..|r|]
    ensures |r| > 0 ==> !IsSpace(r[|r| - 1]) && r[|r| - 1] != '\0'
    decreases |s|
  {
    if |s| > 0 && (IsSpace(s[|s| - 1]) || s[|s| - 1] == '\0') then RStrip(s[..|s| - 1]) else s
  }

  /** `String#strip`: leading whitespace, trailing whitespace and NULs. */
  function Strip(s: string): string {
    RStrip(LStrip(s))
  }

  /** Fields of `s` as the anchors `^` and `$` see them: a final "\n" does not open a line. */
  function RegexLines(s: string): seq<string> {
    var f := Fields(s);
    if |s| > 0 && s[|s| - 1] == '\n' then f[..|f| - 1] else f
  }

  /** `s =~ /^\s*$/`: some line of `s` is blank. */
  predicate HasBlankLine(s: string) {
    exists i :: 0 <= i < |RegexLines(s)| && AllSpace(RegexLines(s)[i])
  }

  /** Length of the leading run of whitespace. */
  function SpaceRun(s: string): (n: nat)
    ensures n <= |s| && AllSpace(s[..n]) && (n < |s| ==> !IsSpace(s[n]))
    decreases |s|
  {
    if |s| > 0 && IsSpace(s[0]) then 1 + SpaceRun(s[1..]) else 0
  }

  // `s.sub(/\n\s*/, ' ')`: the first newline and the whitespace after it become one space.
  function JoinFirstBreak(s: string): string
    decreases |s|
  {
    if |s| == 0 then s
    else if s[0] == '\n' then " " + s[1 + SpaceRun(s[1..])..]
    else [s[0]] + JoinFirstBreak(s[1..])
  }

  /** Length of the longest whitespace prefix of `t` that ends in "\n" (0 if none). */
  function NewlineSpan(t: string): (k: nat)
    ensures k <= |t|
    ensures k > 0 ==> t[k - 1] == '\n' && AllSpace(t[..k])
    decreases |t|
  {
    if |t| > 0 && IsSpace(t[0]) then
      var r := NewlineSpan(t[1..]);
      if r > 0 then r + 1 else if t[0] == '\n' then 1 else 0
    else 0
  }

  /** `s.gsub(/\n\s*\n+/, "\n")`: each run of blank lines becomes a single newline. */
  function CollapseBlankLines(s: string): string
    decreases |s|
  {
    if |s| == 0 then ""
    else if s[0] == '\n' then "\n" + CollapseBlankLines(s[1 + NewlineSpan(s[1..])..])
    else [s[0]] + CollapseBlankLines(s[1..])
  }

  /** `s =~ /^\Abegin/ && s =~ /^end\z/`. */
  predicate WrappedInBeginEnd(s: string) {
    StartsWith(s, "begin") && EndsWith(s, "end") && (|s| == 3 || s[|s| - 4] == '\n')
  }

  /** `String#lines`: the lines of `s`, each keeping its "\n". */
  function RubyLines(s: string): (r: seq<string>)
    ensures s == "" <==> r == []
    decreases |s|
  {
    if |s| == 0 then []
    else
      var rest := RubyLines(s[1..]);
      if s[0] == '\n' then ["\n"] + rest
      else if rest == [] then [[s[0]]]
      else [[s[0]] + rest[0]] + rest[1..]
  }

  /** `a[1..-2]` on a non-empty array. */
  function Inner<T>(a: seq<T>): (r: seq<T>)
    requires |a| > 0
    ensures |a| >= 2 ==> r == a[1..|a| - 1]
    ensures |a| == 1 ==> r == []
  {
    if |a| >= 2 then a[1..|a| - 1] else []
  }

  /** `s.sub(/\(\)$/, '')`: the first "()" that ends a line is removed. */
  function DropEmptyParens(s: string): string
    decreases |s|
  {
    if |s| >= 2 && s[0] == '(' && s[1] == ')' && (|s| == 2 || s[2] == '\n') then s[2..]
    else if |s| == 0 then s
    else [s[0]] + DropEmptyParens(s[1..])
  }

  /** `t =~ /\A\s*end\z/`. */
  predicate SpaceThenEnd(t: string)
    decreases |t|
  {
    t == "end" || (|t| > 0 && IsSpace(t[0]) && SpaceThenEnd(t[1..]))
  }

  /** `s.sub(/\n\s*end\z/, '')`. */
  function DropTrailingEnd(s: string): string
    decreases |s|
  {
    if |s| == 0 then s
    else if s[0] == '\n' && SpaceThenEnd(s[1..]) then ""
    else [s[0]] + DropTrailingEnd(s[1..])
  }

  /** `s.sub(/\=/, rep)`: the first "=" is replaced. */
  function ReplaceFirstEq(s: string, rep: string): string
    decreases |s|
  {
    if |s| == 0 then s
    else if s[0] == '=' then rep + s[1..]
    else [s[0]] + ReplaceFirstEq(s[1..], rep)
  }

  /** `s.sub(/=$/, '')`: the first "=" that ends a line is removed. */
  function DropEqAtEol(s: string): string
    decreases |s|
  {
    if |s| == 0 then s
    else if s[0] == '=' && (|s| == 1 || s[1] == '\n') then s[1..]
    else [s[0]] + DropEqAtEol(s[1..])
  }

  /** `s.gsub(/\A:/, "")`. */
  function DropLeadingColon(s: string): string {
    if |s| > 0 && s[0] == ':' then s[1..] else s
  }

  /** `s[k..-(k+1)]`: nil when `s` is shorter than `k`. */
  function Trim(s: string, k: nat): (r: Option<string>)
    ensures |s| < k <==> r.None?
    ensures |s| >= 2 * k ==> r == Some(s[k..|s| - k])
  {
    if |s| < k then None
    else if |s| - k < k then Some("")
    else Some(s[k..|s| - k])
  }

  /** `s[0..-2]`. */
  function DropLast(s: string): (r: string)
    ensures |s| > 0 ==> r == s[..|s| - 1]
    ensures |s| == 0 ==> r == ""
  {
    if |s| == 0 then "" else s[..|s| - 1]
  }

  /** `s[1..-1]`: nil for "". */
  function DropFirst(s: string): (r: Option<string>)
    ensures |s| > 0 ==> r == Some(s[1..])
    ensures |s| == 0 ==> r == None
  {
    if |s| == 0 then None else Some(s[1..])
  }

  function DigitChar(d: nat): char
    requires d < 10
  {
    "0123456789"[d]
  }

  function NatToString(n: nat): (r: string)
    ensures |r| > 0
    decreases n
  {
    if n < 10 then [DigitChar(n)] else NatToString(n / 10) + [DigitChar(n % 10)]
  }

  /** `Integer#to_s`. */
  function IntToString(i: int): string {
    if i < 0 then "-" + NatToString(-i) else NatToString(i)
  }

  predicate IsLower(ch: char) { 'a' <= ch <= 'z' }

  /** `[_a-zA-Z0-9]`. */
  predicate IsKeyChar(ch: char) {
    ch == '_' || 'a' <= ch <= 'z' || 'A' <= ch <= 'Z' || '0' <= ch <= '9'
  }

  /** The pattern body `[a-z][_a-zA-Z0-9]+`. */
  predicate IsKeyWord(t: string) {
    |t| >= 2 && IsLower(t[0]) && forall i :: 1 <= i < |t| ==> IsKeyChar(t[i])
  }

  /** `RUBY_19_HASH_KEY === t`, i.e. `t =~ /\A[a-z][_a-zA-Z0-9]+\Z/` (`\Z` admits one final "\n"). */
  predicate MatchesHashKey(t: string) {
    IsKeyWord(t) || (|t| > 0 && t[|t| - 1] == '\n' && IsKeyWord(t[..|t| - 1]))
  }

  /** `s.gsub(/\n/, '\n')`: each newline becomes a backslash and an "n". */
  function EscapeNewlines(s: string): (r: string)
    ensures '\n' !in r
    decreases |s|
  {
    if |s| == 0 then ""
    else (if s[0] == '\n' then "\\n" else [s[0]]) + EscapeNewlines(s[1..])
  }

  /** `s.gsub(c, "\\" + c)` for a single character `c`. */
  function EscapeChar(s: string, c: char): string
    decreases |s|
  {
    if |s| == 0 then ""
    else (if s[0] == c then ['\\', c] else [s[0]]) + EscapeChar(s[1..], c)
  }

  /**
   * `s.gsub(c, '\`')` for a single character `c`. In a replacement string a
   * backslash and a backtick stand for the text before the match, so every `c`
   * is replaced by the whole subject in front of it; `pre` is that part.
   */
  function ReplaceByPrematch(pre: string, s: string, c: char): (r: string)
    ensures c !in s ==> r == s
    decreases |s|
  {
    if |s| == 0 then ""
    else
      var rest := ReplaceByPrematch(pre + [s[0]], s[1..], c);
      assert [s[0]] + s[1..] == s;
      (if s[0] == c then pre else [s[0]]) + rest
  }

  /** The tail of `s.gsub(/(\A|[^\\])\//, '\1\/')`, after position 0. */
  function EscapeSlashesRest(s: string): string
    decreases |s|
  {
    if |s| >= 2 && s[0] != '\\' && s[1] == '/' then [s[0]] + "\\/" + EscapeSlashesRest(s[2..])
    else if |s| == 0 then ""
    else [s[0]] + EscapeSlashesRest(s[1..])
  }

  /** `s.gsub(/(\A|[^\\])\//, '\1\/')`, which scans matches without overlap. */
  function EscapeSlashes(s: string): string {
    if |s| > 0 && s[0] == '/' then "\\/" + EscapeSlashesRest(s[1..]) else EscapeSlashesRest(s)
  }

  // ---------------------------------------------------------------------------
  // Facts about these operations.

  /** A final newline closes the last field and opens an empty one. */
  lemma {:induction false} FieldsNewlineAtEnd(s: string)
    ensures Fields(s + "\n") == Fields(s) + [""]
    decreases |s|
  {
    if |s| > 0 {
      assert (s + "\n")[1..] == s[1..] + "\n";
      FieldsNewlineAtEnd(s[1..]);
    }
  }

  /** Text without a newline is a single field. */
  lemma {:induction false} FieldsOneLine(s: string)
    requires '\n' !in s
    ensures Fields(s) == [s]
    decreases |s|
  {
    if |s| > 0 {
      FieldsOneLine(s[1..]);
      assert [s[0]] + s[1..] == s;
    }
  }

  /** A newline after a first line without one separates that line from the fields of the rest. */
  lemma {:induction false} FieldsFirstLine(a: string, b: string)
    requires '\n' !in a
    ensures Fields(a + "\n" + b) == [a] + Fields(b)
    decreases |a|
  {
    if |a| == 0 {
      assert a + "\n" + b == "\n" + b;
      assert ("\n" + b)[1..] == b;
    } else {
      assert (a + "\n" + b)[1..] == a[1..] + "\n" + b;
      FieldsFirstLine(a[1..], b);
      assert [a[0]] + a[1..] == a;
    }
  }

  lemma DropTrailingEmptyAppend(f: seq<string>)
    ensures DropTrailingEmpty(f + [""]) == DropTrailingEmpty(f)
  {
    assert (f + [""])[..|f|] == f;
  }

  lemma {:induction false} DropTrailingEmptyFront(x: string, f: seq<string>)
    requires DropTrailingEmpty(f) != []
    ensures DropTrailingEmpty([x] + f) == [x] + DropTrailingEmpty(f)
    decreases |f|
  {
    if |f| > 0 && f[|f| - 1] == "" {
      assert ([x] + f)[..|f|] == [x] + f[..|f| - 1];
      DropTrailingEmptyFront(x, f[..|f| - 1]);
    }
  }

  /** `split` drops trailing empty fields, so `"".split` is empty and `indent("")` is "". */
  lemma IndentEmpty()
    ensures SplitLines("") == [] && Indent("") == ""
  {
  }

  /** A trailing newline does not reach the indented text. */
  lemma IndentIgnoresFinalNewline(s: string)
    ensures SplitLines(s + "\n") == SplitLines(s)
    ensures Indent(s + "\n") == Indent(s)
  {
    FieldsNewlineAtEnd(s);
    DropTrailingEmptyAppend(Fields(s));
  }

  /** A single non-empty line is prefixed with the indent unit. */
  lemma IndentOneLine(s: string)
    requires s != "" && '\n' !in s
    ensures SplitLines(s) == [s]
    ensures Indent(s) == IndentUnit + s
  {
    FieldsOneLine(s);
  }

  /** Indenting line by line: the first line gets the unit, the rest is indented in its turn. */
  lemma IndentFirstLine(a: string, b: string)
    requires a != "" && '\n' !in a && SplitLines(b) != []
    ensures Indent(a + "\n" + b) == IndentUnit + a + "\n" + Indent(b)
  {
    FieldsFirstLine(a, b);
    DropTrailingEmptyFront(a, Fields(b));
    var ls := PrefixEach(SplitLines(a + "\n" + b), IndentUnit);
    assert ls == [IndentUnit + a] + PrefixEach(SplitLines(b), IndentUnit);
    assert ls[1..] == PrefixEach(SplitLines(b), IndentUnit);
  }

  /** A text without a newline has no line start inside it: `"\n" + w` occurs nowhere. */
  lemma {:induction false} NoNewlineNoLineStart(s: string, w: string)
    requires '\n' !in s
    ensures !Contains(s, "\n" + w)
    decreases |s|
  {
    if |s| > 0 {
      assert !StartsWith(s, "\n" + w) by { assert s[0] != '\n'; }
      NoNewlineNoLineStart(s[1..], w);
    } else {
      assert !StartsWith(s, "\n" + w);
    }
  }

  /** A match inside a part is a match inside the whole. */
  lemma {:induction false} ContainsInRight(a: string, b: string, p: string)
    requires Contains(b, p)
    ensures Contains(a + b, p)
    decreases |a|
  {
    if |a| > 0 {
      assert (a + b)[1..] == a[1..] + b;
      ContainsInRight(a[1..], b, p);
    } else {
      assert a + b == b;
    }
  }

  lemma {:induction false} ContainsInLeft(a: string, b: string, p: string)
    requires Contains(a, p)
    ensures Contains(a + b, p)
    decreases |a|
  {
    if StartsWith(a, p) {
      assert (a + b)[..|p|] == a[..|p|];
    } else {
      assert (a + b)[1..] == a[1..] + b;
      ContainsInLeft(a[1..], b, p);
    }
  }

  /** Undoing `EscapeChar`: a backslash before `c` is dropped. */
  function UnescapeChar(s: string, c: char): string
    decreases |s|
  {
    if |s| >= 2 && s[0] == '\\' && s[1] == c then [c] + UnescapeChar(s[2..], c)
    else if |s| == 0 then ""
    else [s[0]] + UnescapeChar(s[1..], c)
  }

  /** Escaping any character but the backslash loses nothing: unescaping gives the text back. */
  lemma {:induction false} EscapeCharRoundTrip(s: string, c: char)
    requires c != '\\'
    ensures UnescapeChar(EscapeChar(s, c), c) == s
    decreases |s|
  {
    if |s| > 0 {
      var rest := EscapeChar(s[1..], c);
      EscapeCharRoundTrip(s[1..], c);
      EscapeCharHead(s[1..], c);
      if s[0] == c {
        assert EscapeChar(s, c) == ['\\', c] + rest;
        assert (['\\', c] + rest)[2..] == rest;
      } else {
        assert EscapeChar(s, c) == [s[0]] + rest;
        assert ([s[0]] + rest)[1..] == rest;
      }
      assert [s[0]] + s[1..] == s;
    }
  }

  /** An escaped text never starts with the escaped character itself. */
  lemma EscapeCharHead(s: string, c: char)
    ensures |EscapeChar(s, c)| == 0 <==> |s| == 0
    ensures |s| > 0 ==> EscapeChar(s, c)[0] == (if s[0] == c then '\\' else s[0])
  {
  }

  /** Without a newline, the newline escape changes nothing. */
  lemma {:induction false} EscapeNewlinesAbsent(s: string)
    requires '\n' !in s
    ensures EscapeNewlines(s) == s
    decreases |s|
  {
    if |s| > 0 {
      EscapeNewlinesAbsent(s[1..]);
      assert [s[0]] + s[1..] == s;
    }
  }

  /** Without the character, escaping changes nothing. */
  lemma {:induction false} EscapeCharAbsent(s: string, c: char)
    requires c !in s
    ensures EscapeChar(s, c) == s
    decreases |s|
  {
    if |s| > 0 {
      EscapeCharAbsent(s[1..], c);
      assert [s[0]] + s[1..] == s;
    }
  }

  /** Without slashes, the slash escape changes nothing. */
  lemma {:induction false} EscapeSlashesAbsent(s: string)
    requires '/' !in s
    ensures EscapeSlashesRest(s) == s && EscapeSlashes(s) == s
    decreases |s|
  {
    if |s| > 0 {
      EscapeSlashesAbsent(s[1..]);
      assert [s[0]] + s[1..] == s;
    }
  }

  /**
   * The slash escape matches a slash together with the character before it,
   * so of two consecutive slashes only the first is escaped.
   */
  lemma EscapeSlashesDoubled()
    ensures EscapeSlashes("a/b") == "a\\/b"
    ensures EscapeSlashes("/") == "\\/"
    ensures EscapeSlashes("a\\/b") == "a\\/b"
    ensures EscapeSlashes("a//b") == "a\\//b"
  {
    assert EscapeSlashesRest("b") == "b";
    assert EscapeSlashesRest("/b") == "/b";
    assert EscapeSlashesRest("a//b") == "a\\/" + EscapeSlashesRest("/b");
    assert EscapeSlashesRest("a/b") == "a\\/" + EscapeSlashesRest("b");
    assert EscapeSlashesRest("\\/b") == "\\" + EscapeSlashesRest("/b");
    assert EscapeSlashesRest("a\\/b") == "a" + EscapeSlashesRest("\\/b");
  }

  /** A run of spaces in front of a non-space is exactly as long as it looks. */
  lemma {:induction false} SpaceRunOfSpaces(k: nat, b: string)
    requires b == "" || !IsSpace(b[0])
    ensures SpaceRun(Spaces(k) + b) == k
    decreases k
  {
    if k > 0 {
      assert Spaces(k) == Spaces(k - 1) + " ";
      assert Spaces(k) + b == " " + (Spaces(k - 1) + b);
      assert (" " + (Spaces(k - 1) + b))[1..] == Spaces(k - 1) + b;
      SpaceRunOfSpaces(k - 1, b);
    } else {
      assert Spaces(0) + b == b;
    }
  }

  /** The compact rescue form: the first line break and the indentation after it become one space. */
  lemma {:induction false} JoinFirstBreakIndented(a: string, k: nat, b: string)
    requires '\n' !in a && (b == "" || !IsSpace(b[0]))
    ensures JoinFirstBreak(a + "\n" + Spaces(k) + b) == a + " " + b
    decreases |a|
  {
    var s := a + "\n" + Spaces(k) + b;
    if |a| == 0 {
      assert s == "\n" + (Spaces(k) + b);
      assert s[1..] == Spaces(k) + b;
      SpaceRunOfSpaces(k, b);
      assert (Spaces(k) + b)[k..] == b;
    } else {
      assert s[1..] == a[1..] + "\n" + Spaces(k) + b;
      JoinFirstBreakIndented(a[1..], k, b);
      assert [a[0]] + (a[1..] + " " + b) == a + " " + b;
    }
  }
}
