/**
 * The text clean-up that `execute_olt_command` (gestion_red/connect.py) applies
 * to what the OLT prints back after a command: split on '\n', drop every line
 * that contains the command text or is blank, join the rest with '\n'.
 */
module OltOutput {

  /** Python's `str.isspace` for one character: exactly what `str.strip()` removes. */
  predicate IsSpace(c: char) {
    var n := c as int;
    (9 <= n <= 13) || (28 <= n <= 32) || n == 0x85 || n == 0xA0 || n == 0x1680
    || (0x2000 <= n <= 0x200A) || n == 0x2028 || n == 0x2029 || n == 0x202F
    || n == 0x205F || n == 0x3000
  }

  /** `line.strip()` is the empty string. */
  predicate IsBlank(line: string) {
    forall i :: 0 <= i < |line| ==> IsSpace(line[i])
  }

  /** Python's `needle in hay` on strings: a substring test (the empty string is in every string). */
  predicate Contains(hay: string, needle: string)
    decreases |hay|
  {
    needle <= hay || (hay != [] && Contains(hay[1..], needle))
  }

  /** `needle` sits in `hay` at position `i`. */
  predicate SubstringAt(hay: string, needle: string, i: nat) {
    i + |needle| <= |hay| && hay[i..i + |needle|] == needle
  }

  /** A needle sitting somewhere in the text is found by the substring test. */
  lemma {:induction false} ContainsFrom(hay: string, needle: string, i: nat)
    requires SubstringAt(hay, needle, i)
    ensures Contains(hay, needle)
    decreases i
  {
    if i == 0 {
      assert hay[..|needle|] == needle;
    } else {
      assert hay[1..][i - 1..i - 1 + |needle|] == hay[i..i + |needle|];
      ContainsFrom(hay[1..], needle, i - 1);
    }
  }

  /** The substring test only succeeds where the needle sits somewhere in the text. */
  lemma {:induction false} ContainsWitness(hay: string, needle: string) returns (i: nat)
    requires Contains(hay, needle)
    ensures SubstringAt(hay, needle, i)
    decreases |hay|
  {
    if needle <= hay {
      i := 0;
      assert hay[..|needle|] == needle;
    } else {
      var j := ContainsWitness(hay[1..], needle);
      assert hay[1..][j..j + |needle|] == hay[j + 1..j + 1 + |needle|];
      i := j + 1;
    }
  }

  /** `needle in hay` holds exactly when the needle sits at some position of the text. */
  lemma ContainsAt(hay: string, needle: string)
    ensures Contains(hay, needle) <==> exists i: nat :: SubstringAt(hay, needle, i)
  {
    if Contains(hay, needle) {
      var i := ContainsWitness(hay, needle);
    }
    if exists i: nat :: SubstringAt(hay, needle, i) {
      var i: nat :| SubstringAt(hay, needle, i);
      ContainsFrom(hay, needle, i);
    }
  }

  /** `s.lstrip()`. */
  function LStrip(s: string): string
    decreases |s|
  {
    if s != [] && IsSpace(s[0]) then LStrip(s[1..]) else s
  }

  /** `s.rstrip()`. */
  function RStrip(s: string): string
    decreases |s|
  {
    if s != [] && IsSpace(s[|s| - 1]) then RStrip(s[..|s| - 1]) else s
  }

  /** `s.strip()`: whitespace removed from both ends. */
  function Strip(s: string): string
  {
    RStrip(LStrip(s))
  }

  /** Stripping the left end leaves nothing exactly when every character is whitespace, and
      otherwise starts at a character that is not. */
  lemma {:induction false} LStripBlank(s: string)
    ensures LStrip(s) == [] <==> IsBlank(s)
    ensures LStrip(s) != [] ==> !IsSpace(LStrip(s)[0])
    decreases |s|
  {
    if s != [] && IsSpace(s[0]) {
      LStripBlank(s[1..]);
      assert IsBlank(s) <==> IsBlank(s[1..]) by {
        assert forall i :: 0 <= i < |s[1..]| ==> s[1..][i] == s[i + 1];
      }
    }
  }

  /** Stripping the right end keeps a text whose first character is not whitespace. */
  lemma {:induction false} RStripKeepsFirst(s: string)
    requires s != [] && !IsSpace(s[0])
    ensures RStrip(s) != []
    decreases |s|
  {
    if IsSpace(s[|s| - 1]) {
      RStripKeepsFirst(s[..|s| - 1]);
    }
  }

  /** `line.strip()` is the empty string exactly when the line is blank. */
  lemma StripEmpty(line: string)
    ensures Strip(line) == [] <==> IsBlank(line)
  {
    LStripBlank(line);
    if LStrip(line) != [] {
      RStripKeepsFirst(LStrip(line));
    }
  }

  /** Python's `s.split('\n')`: always at least one piece, none holding a '\n'. */
  function Split(s: string): (lines: seq<string>)
    ensures |lines| >= 1
    ensures forall l :: l in lines ==> '\n' !in l
    decreases |s|
  {
    if s == [] then [[]]
    else
      var rest := Split(s[1..]);
      if s[0] == '\n' then [[]] + rest
      else [[s[0]] + rest[0]] + rest[1..]
  }

  /** The number of characters in all the lines together. */
  function TotalLength(lines: seq<string>): nat
  {
    if lines == [] then 0 else |lines[0]| + TotalLength(lines[1..])
  }

  /** Python's `"\n".join(lines)`: the lines' characters and one separator between each two. */
  function Join(lines: seq<string>): (r: string)
    ensures lines == [] ==> r == []
    ensures lines != [] ==> |r| == TotalLength(lines) + |lines| - 1
  {
    if |lines| == 0 then []
    else if |lines| == 1 then lines[0]
    else lines[0] + "\n" + Join(lines[1..])
  }

  /** The comprehension's condition: `command not in line and line.strip()`. */
  predicate Keep(line: string, command: string) {
    !Contains(line, command) && !IsBlank(line)
  }

  /** The comprehension `[line for line in lines if command not in line and line.strip()]`. */
  function Kept(lines: seq<string>, command: string): (r: seq<string>)
    ensures |r| <= |lines|
    ensures forall l :: l in r ==> l in lines && Keep(l, command)
    ensures forall l :: l in lines && Keep(l, command) ==> l in r
  {
    if lines == [] then []
    else (if Keep(lines[0], command) then [lines[0]] else []) + Kept(lines[1..], command)
  }

  /** The cleaned output of `execute_olt_command` for the decoded text `output`. */
  function Clean(output: string, command: string): (r: string)
    ensures r == [] <==> Kept(Split(output), command) == []
  {
    var kept := Kept(Split(output), command);
    NonEmptyJoin(kept, command);
    Join(kept)
  }

  /** `a` is obtained from `b` by deleting elements, keeping the rest in order. */
  predicate IsSubsequence<T(==)>(a: seq<T>, b: seq<T>)
    decreases |b|
  {
    a == [] || (b != [] && ((a[0] == b[0] && IsSubsequence(a[1..], b[1..])) || IsSubsequence(a, b[1..])))
  }

  // ---------------------------------------------------------------------------
  // Splitting and joining
  // ---------------------------------------------------------------------------

  /** Joining the pieces of a split gives back the text. */
  lemma {:induction false} JoinSplit(s: string)
    ensures Join(Split(s)) == s
    decreases |s|
  {
    if s != [] {
      JoinSplit(s[1..]);
      var rest := Split(s[1..]);
      if s[0] == '\n' {
        assert Split(s) == [[]] + rest;
        assert Join(Split(s)) == [] + "\n" + Join(rest);
      } else if |rest| == 1 {
        assert Split(s) == [[s[0]] + rest[0]];
      } else {
        assert Split(s) == [[s[0]] + rest[0]] + rest[1..];
        assert Split(s)[1..] == rest[1..];
        assert Join(rest) == rest[0] + "\n" + Join(rest[1..]);
      }
    }
  }

  /** A text without '\n' splits into itself alone. */
  lemma {:induction false} SplitLine(a: string)
    requires '\n' !in a
    ensures Split(a) == [a]
    decreases |a|
  {
    if a != [] {
      SplitLine(a[1..]);
      assert [a[0]] + a[1..] == a;
    }
  }

  /** Splitting `a + "\n" + b` with `a` free of '\n' yields `a` then the pieces of `b`. */
  lemma {:induction false} SplitAfterLine(a: string, b: string)
    requires '\n' !in a
    ensures Split(a + "\n" + b) == [a] + Split(b)
    decreases |a|
  {
    var s := a + "\n" + b;
    if a == [] {
      assert s[1..] == b;
    } else {
      assert s[1..] == a[1..] + "\n" + b;
      SplitAfterLine(a[1..], b);
      assert [a[0]] + a[1..] == a;
    }
  }

  /** Splitting a join of '\n'-free lines gives the lines back (when there is at least one). */
  lemma {:induction false} SplitJoin(lines: seq<string>)
    requires lines != []
    requires forall l :: l in lines ==> '\n' !in l
    ensures Split(Join(lines)) == lines
    decreases |lines|
  {
    if |lines| == 1 {
      SplitLine(lines[0]);
    } else {
      SplitJoin(lines[1..]);
      SplitAfterLine(lines[0], Join(lines[1..]));
      assert [lines[0]] + lines[1..] == lines;
    }
  }

  /** A join of lines that starts with a non-blank line is not empty. */
  lemma NonEmptyJoin(kept: seq<string>, command: string)
    requires forall l :: l in kept ==> Keep(l, command)
    ensures Join(kept) == [] <==> kept == []
  {
    if kept != [] {
      assert Keep(kept[0], command);
      if |kept| > 1 {
        assert Join(kept) == kept[0] + "\n" + Join(kept[1..]);
      }
    }
  }

  // ---------------------------------------------------------------------------
  // The filter
  // ---------------------------------------------------------------------------

  /** The kept lines keep their relative order: they are a subsequence of the raw lines. */
  lemma {:induction false} KeptIsSubsequence(lines: seq<string>, command: string)
    ensures IsSubsequence(Kept(lines, command), lines)
    decreases |lines|
  {
    if lines != [] {
      KeptIsSubsequence(lines[1..], command);
      var rest := Kept(lines[1..], command);
      if Keep(lines[0], command) {
        assert Kept(lines, command) == [lines[0]] + rest;
        assert Kept(lines, command)[1..] == rest;
      } else {
        assert Kept(lines, command) == rest;
      }
    }
  }

  /** Every line that passes the test is kept as often as it occurs, and no other line is kept. */
  lemma {:induction false} KeptCounts(lines: seq<string>, command: string)
    ensures forall l :: multiset(Kept(lines, command))[l]
                        == if Keep(l, command) then multiset(lines)[l] else 0
    decreases |lines|
  {
    if lines != [] {
      KeptCounts(lines[1..], command);
      assert lines == [lines[0]] + lines[1..];
      assert multiset(lines) == multiset{lines[0]} + multiset(lines[1..]);
    }
  }

  /** Filtering lines that all pass the test changes nothing. */
  lemma {:induction false} KeptAllPass(lines: seq<string>, command: string)
    requires forall l :: l in lines ==> Keep(l, command)
    ensures Kept(lines, command) == lines
    decreases |lines|
  {
    if lines != [] {
      assert lines[0] in lines;
      KeptAllPass(lines[1..], command);
      assert [lines[0]] + lines[1..] == lines;
    }
  }

  /** The filter is idempotent. */
  lemma KeptIdempotent(lines: seq<string>, command: string)
    ensures Kept(Kept(lines, command), command) == Kept(lines, command)
  {
    KeptAllPass(Kept(lines, command), command);
  }

  // ---------------------------------------------------------------------------
  // The cleaned output
  // ---------------------------------------------------------------------------

  /** The lines of a non-empty cleaned output are exactly the kept lines: none holds the
      command, none is blank. An empty cleaned output means no line was kept. */
  lemma CleanLines(output: string, command: string)
    ensures var r := Clean(output, command);
      && (r == [] <==> Kept(Split(output), command) == [])
      && (r != [] ==> Split(r) == Kept(Split(output), command))
      && (r != [] ==> forall l :: l in Split(r) ==> !Contains(l, command) && !IsBlank(l))
  {
    var kept := Kept(Split(output), command);
    if kept != [] {
      SplitJoin(kept);
    }
  }

  /** Cleaning an already cleaned output with the same command returns it unchanged. */
  lemma CleanIdempotent(output: string, command: string)
    ensures Clean(Clean(output, command), command) == Clean(output, command)
  {
    var kept := Kept(Split(output), command);
    if kept == [] {
      assert Split([]) == [[]];
      assert IsBlank([]);
      assert Kept([[]], command) == [];
    } else {
      SplitJoin(kept);
      KeptIdempotent(Split(output), command);
    }
  }

  /** The empty string is in every line, so an empty command drops every line. */
  lemma {:induction false} EmptyCommandKeepsNothing(lines: seq<string>)
    ensures Kept(lines, []) == []
    decreases |lines|
  {
    if lines != [] {
      assert Contains(lines[0], []);
      EmptyCommandKeepsNothing(lines[1..]);
    }
  }

  /** With the empty command the cleaned output is always the empty string. */
  lemma CleanEmptyCommand(output: string)
    ensures Clean(output, []) == []
  {
    EmptyCommandKeepsNothing(Split(output));
  }
}
