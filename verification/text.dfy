/** The string building the CSV export does, and its inverse: a text split
    at a separator character. The export writes fields one after another,
    each prefixed by a comma, and ends every line with a newline; splitting
    reads such a text back. */
module Text {

  /** The fields of s between occurrences of sep, as `s.split(sep)` gives
      them for a one-character separator: always at least one field, none
      holding the separator. */
  function Split(s: string, sep: char): (r: seq<string>)
    ensures |r| >= 1
    ensures forall i :: 0 <= i < |r| ==> sep !in r[i]
    decreases |s|
  {
    if |s| == 0 then [""]
    else if s[0] == sep then [""] + Split(s[1..], sep)
    else
      var t := Split(s[1..], sep);
      [[s[0]] + t[0]] + t[1..]
  }

  /** The fields with sep between neighbours. */
  function Join(fields: seq<string>, sep: char): string
    requires |fields| > 0
  {
    if |fields| == 1 then fields[0] else fields[0] + [sep] + Join(fields[1..], sep)
  }

  /** Every field preceded by sep, one after another: the text a loop of
      `line += sep + field` appends. */
  function Prefixed(fields: seq<string>, sep: char): string {
    if |fields| == 0 then "" else [sep] + fields[0] + Prefixed(fields[1..], sep)
  }

  /** Appending each field with its separator builds the joined line. */
  lemma {:induction false} JoinPrefixed(head: string, fields: seq<string>, sep: char)
    ensures Join([head] + fields, sep) == head + Prefixed(fields, sep)
    decreases |fields|
  {
    if |fields| > 0 {
      assert ([head] + fields)[1..] == [fields[0]] + fields[1..];
      JoinPrefixed(fields[0], fields[1..], sep);
    }
  }

  /** A character other than the separator occurs in the joined text only
      if it occurs in a field. */
  lemma {:induction false} JoinExcludes(fields: seq<string>, sep: char, c: char)
    requires |fields| > 0 && c != sep
    requires forall i :: 0 <= i < |fields| ==> c !in fields[i]
    ensures c !in Join(fields, sep)
    decreases |fields|
  {
    if |fields| > 1 {
      JoinExcludes(fields[1..], sep, c);
    }
  }

  /** Every line followed by a newline. */
  function Unlines(lines: seq<string>): string {
    if |lines| == 0 then "" else lines[0] + "\n" + Unlines(lines[1..])
  }

  /** Joined lines start with the first line, and every line, the last
      included, ends with a newline. */
  lemma {:induction false} UnlinesEndsWithNewline(lines: seq<string>)
    requires |lines| > 0
    ensures lines[0] <= Unlines(lines)
    ensures |Unlines(lines)| > 0 && Unlines(lines)[|Unlines(lines)| - 1] == '\n'
    decreases |lines|
  {
    if |lines| > 1 {
      UnlinesEndsWithNewline(lines[1..]);
    }
  }

  lemma {:induction false} SplitNoSep(s: string, sep: char)
    requires sep !in s
    ensures Split(s, sep) == [s]
    decreases |s|
  {
    if |s| > 0 {
      SplitNoSep(s[1..], sep);
      assert s == [s[0]] + s[1..];
    }
  }

  /** A separator-free prefix followed by the separator splits off as the
      first field. */
  lemma {:induction false} SplitAfter(a: string, b: string, sep: char)
    requires sep !in a
    ensures Split(a + [sep] + b, sep) == [a] + Split(b, sep)
    decreases |a|
  {
    if |a| == 0 {
      assert a + [sep] + b == [sep] + b;
      assert ([sep] + b)[1..] == b;
    } else {
      assert (a + [sep] + b)[1..] == a[1..] + [sep] + b;
      SplitAfter(a[1..], b, sep);
      assert [a[0]] + a[1..] == a;
    }
  }

  /** Splitting undoes joining when no field holds the separator. */
  lemma {:induction false} SplitJoin(fields: seq<string>, sep: char)
    requires |fields| > 0
    requires forall i :: 0 <= i < |fields| ==> sep !in fields[i]
    ensures Split(Join(fields, sep), sep) == fields
    decreases |fields|
  {
    if |fields| == 1 {
      SplitNoSep(fields[0], sep);
    } else {
      SplitJoin(fields[1..], sep);
      SplitAfter(fields[0], Join(fields[1..], sep), sep);
      assert fields == [fields[0]] + fields[1..];
    }
  }

  /** Joining undoes splitting: no text is lost by a split. */
  lemma {:induction false} JoinSplit(s: string, sep: char)
    ensures Join(Split(s, sep), sep) == s
    decreases |s|
  {
    if |s| > 0 {
      var t := Split(s[1..], sep);
      JoinSplit(s[1..], sep);
      if s[0] == sep {
        assert ([""] + t)[1..] == t;
        assert s == [sep] + s[1..];
      } else {
        var r := [[s[0]] + t[0]] + t[1..];
        if |t| == 1 {
          assert s == [s[0]] + s[1..];
        } else {
          assert r[1..] == t[1..];
          assert Join(t, sep) == t[0] + [sep] + Join(t[1..], sep);
          assert s == [s[0]] + s[1..];
        }
      }
    }
  }

  /** Lines free of newlines are read back by splitting at newlines; the
      final newline leaves one empty field after the last line. */
  lemma {:induction false} SplitUnlines(lines: seq<string>)
    requires forall i :: 0 <= i < |lines| ==> '\n' !in lines[i]
    ensures Split(Unlines(lines), '\n') == lines + [""]
    decreases |lines|
  {
    if |lines| > 0 {
      SplitUnlines(lines[1..]);
      SplitAfter(lines[0], Unlines(lines[1..]), '\n');
      assert lines + [""] == [lines[0]] + (lines[1..] + [""]);
    }
  }

  /** The first field is the longest separator-free prefix of s. */
  lemma {:induction false} SplitHead(s: string, sep: char)
    ensures Split(s, sep)[0] <= s
    ensures |Split(s, sep)[0]| < |s| ==> s[|Split(s, sep)[0]|] == sep
    decreases |s|
  {
    if |s| > 0 && s[0] != sep {
      SplitHead(s[1..], sep);
      assert s == [s[0]] + s[1..];
    }
  }
}
