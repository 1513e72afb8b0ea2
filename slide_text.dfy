/** The `cleanContent` normalisation shared by the theory, intro and fact slides
    (src/components/features/lesson-slides/TheorySlide.jsx, IntroSlide.jsx, FactSlide.jsx):
    split the content on "\n", trim every line, drop the empty lines and join the rest with
    "\n\n". Trimming follows `String.prototype.trim`, whose white space is ECMAScript's
    WhiteSpace and LineTerminator code points. The pieces are stated for any set `ws` of white
    space characters, and `Clean` fixes `ws` to that set. */
module SlideText {
  import opened Common

  /** The white space and line terminators removed by `String.prototype.trim` (section 22.1.3.32
      of ECMA-262, with the WhiteSpace and LineTerminator productions of section 12): tab, line
      feed, vertical tab, form feed, carriage return, space, no-break space, the Unicode space
      separators, the line and paragraph separators, and the byte order mark. */
  const JsSpace: set<char> := {
    '\t', '\n', '\U{000B}', '\U{000C}', '\r', ' ', '\U{00A0}', '\U{1680}',
    '\U{2000}', '\U{2001}', '\U{2002}', '\U{2003}', '\U{2004}', '\U{2005}', '\U{2006}',
    '\U{2007}', '\U{2008}', '\U{2009}', '\U{200A}',
    '\U{2028}', '\U{2029}', '\U{202F}', '\U{205F}', '\U{3000}', '\U{FEFF}'}

  predicate AllSpace(s: string, ws: set<char>)
  {
    forall i :: 0 <= i < |s| ==> s[i] in ws
  }

  /** Neither end of `s` is white space. */
  predicate Trimmed(s: string, ws: set<char>)
  {
    s == [] || (s[0] !in ws && s[|s| - 1] !in ws)
  }

  /** `s` with its leading white space removed. */
  function TrimStart(s: string, ws: set<char>): (r: string)
    ensures |r| <= |s|
    ensures r != [] ==> r[0] !in ws
    ensures AllSpace(s, ws) ==> r == []
    decreases |s|
  {
    if s != [] && s[0] in ws then TrimStart(s[1..], ws) else s
  }

  /** `s` with its trailing white space removed. */
  function TrimEnd(s: string, ws: set<char>): (r: string)
    ensures |r| <= |s|
    ensures r != [] ==> r[|r| - 1] !in ws
    decreases |s|
  {
    if s != [] && s[|s| - 1] in ws then TrimEnd(s[..|s| - 1], ws) else s
  }

  /** What `TrimStart` removes is a prefix of white space: the rest is a suffix of `s`. */
  lemma {:induction false} TrimStartSuffix(s: string, ws: set<char>)
    ensures TrimStart(s, ws) == s[|s| - |TrimStart(s, ws)|..]
    ensures AllSpace(s[..|s| - |TrimStart(s, ws)|], ws)
    decreases |s|
  {
    if s != [] && s[0] in ws {
      TrimStartSuffix(s[1..], ws);
      var r := TrimStart(s, ws);
      var k := |s| - |r|;
      assert s[1..][k - 1..] == s[k..];
      forall i | 0 <= i < k ensures s[..k][i] in ws {
        if i > 0 { assert s[..k][i] == s[1..][..k - 1][i - 1]; }
      }
    }
  }

  /** What `TrimEnd` removes is a suffix of white space: the rest is a prefix of `s`. */
  lemma {:induction false} TrimEndPrefix(s: string, ws: set<char>)
    ensures TrimEnd(s, ws) == s[..|TrimEnd(s, ws)|]
    ensures AllSpace(s[|TrimEnd(s, ws)|..], ws)
    decreases |s|
  {
    if s != [] && s[|s| - 1] in ws {
      var u := s[..|s| - 1];
      TrimEndPrefix(u, ws);
      var r := TrimEnd(s, ws);
      assert u[..|r|] == s[..|r|];
      forall i | |r| <= i < |s| ensures s[i] in ws {
        if i < |s| - 1 { assert s[i] == u[|r|..][i - |r|]; }
      }
    }
  }

  /** `s.trim()`: leading and then trailing white space removed. */
  function Trim(s: string, ws: set<char>): (r: string)
    ensures |r| <= |s|
  {
    TrimEnd(TrimStart(s, ws), ws)
  }

  /** Neither end of a trimmed string is white space. */
  lemma TrimIsTrimmed(s: string, ws: set<char>)
    ensures Trimmed(Trim(s, ws), ws)
  {
    var t := TrimStart(s, ws);
    var r := TrimEnd(t, ws);
    TrimEndPrefix(t, ws);
    assert r != [] ==> r[0] == t[0];
  }

  /** Only white space is removed, so a line without line feeds stays one. */
  lemma TrimKeepsLine(s: string, ws: set<char>)
    requires '\n' !in s
    ensures '\n' !in Trim(s, ws)
  {
    var t := TrimStart(s, ws);
    var r := TrimEnd(t, ws);
    TrimStartSuffix(s, ws);
    TrimEndPrefix(t, ws);
    forall j | 0 <= j < |r| ensures r[j] != '\n' {
      assert r[j] == t[j] == s[|s| - |t| + j];
    }
  }

  /** A string without white space at either end is its own trim. */
  lemma TrimOfTrimmed(s: string, ws: set<char>)
    requires Trimmed(s, ws)
    ensures Trim(s, ws) == s
  {
    assert TrimStart(s, ws) == s;
  }

  /** `s.split("\n")`: the pieces between line feeds, at least one. */
  function Split(s: string): (r: seq<string>)
    ensures |r| >= 1
    ensures forall i :: 0 <= i < |r| ==> '\n' !in r[i]
    decreases |s|
  {
    if s == [] then [""]
    else if s[0] == '\n' then [""] + Split(s[1..])
    else
      var rest := Split(s[1..]);
      [[s[0]] + rest[0]] + rest[1..]
  }

  /** `parts.join(sep)`. */
  function Join(parts: seq<string>, sep: string): string
  {
    if parts == [] then ""
    else if |parts| == 1 then parts[0]
    else parts[0] + sep + Join(parts[1..], sep)
  }

  /** `.map((line) => line.trim())`. */
  function TrimAll(lines: seq<string>, ws: set<char>): (r: seq<string>)
    ensures |r| == |lines|
  {
    if lines == [] then [] else [Trim(lines[0], ws)] + TrimAll(lines[1..], ws)
  }

  /** `.filter((line) => line !== "")`, which is also what `.filter((l) => l)` keeps: the lines
      other than "", each where it was (`NonEmptyAppend` gives the order), and all of them when none
      is empty. */
  function NonEmpty(lines: seq<string>): (r: seq<string>)
    ensures |r| <= |lines|
    ensures forall x :: x in r <==> x in lines && x != ""
    ensures (forall i :: 0 <= i < |lines| ==> lines[i] != "") ==> r == lines
  {
    if lines == [] then []
    else
      assert forall x :: x in lines <==> x == lines[0] || x in lines[1..];
      assert (forall i :: 0 <= i < |lines| ==> lines[i] != "") ==>
             (forall i :: 0 <= i < |lines[1..]| ==> lines[1..][i] != "") by {
        if forall i :: 0 <= i < |lines| ==> lines[i] != "" {
          forall i | 0 <= i < |lines[1..]| ensures lines[1..][i] != "" { assert lines[1..][i] == lines[i + 1]; }
        }
      }
      assert lines == [lines[0]] + lines[1..];
      if lines[0] == "" then NonEmpty(lines[1..])
      else [lines[0]] + NonEmpty(lines[1..])
  }

  /** Each of `lines` is trimmed and a single line. */
  predicate TrimmedLines(lines: seq<string>, ws: set<char>)
  {
    forall i :: 0 <= i < |lines| ==> Trimmed(lines[i], ws) && '\n' !in lines[i]
  }

  /** The paragraphs kept by the normalisation: each non-empty, trimmed and a single line. */
  function Lines(s: string, ws: set<char>): (ls: seq<string>)
    ensures forall i :: 0 <= i < |ls| ==> ls[i] != ""
    ensures TrimmedLines(ls, ws)
  {
    var pieces := Split(s);
    NonEmptyDrops(TrimAll(pieces, ws));
    TrimAllLines(pieces, ws);
    NonEmptyLines(TrimAll(pieces, ws), ws);
    NonEmpty(TrimAll(pieces, ws))
  }

  /** `cleanContent` for the white space `ws`: the kept paragraphs joined with blank lines. */
  function CleanWith(s: string, ws: set<char>): string
  {
    Join(Lines(s, ws), "\n\n")
  }

  /** `cleanContent`, with the white space of `String.prototype.trim`. */
  function Clean(s: string): string
  {
    CleanWith(s, JsSpace)
  }

  /** The separator-free reading of a string joined with "\n\n": each part followed by the empty
      line that sits between the two line feeds. */
  function Interleave(parts: seq<string>): seq<string>
    requires |parts| >= 1
  {
    if |parts| == 1 then parts else [parts[0], ""] + Interleave(parts[1..])
  }

  // ---------------------------------------------------------------- properties of the pieces

  /** Each line is replaced by its trim. */
  lemma {:induction false} TrimAllAt(lines: seq<string>, ws: set<char>)
    ensures forall i :: 0 <= i < |lines| ==> TrimAll(lines, ws)[i] == Trim(lines[i], ws)
    decreases |lines|
  {
    if lines != [] {
      TrimAllAt(lines[1..], ws);
      var r := TrimAll(lines, ws);
      forall i | 0 < i < |lines| ensures r[i] == Trim(lines[i], ws) {
        assert r[i] == TrimAll(lines[1..], ws)[i - 1];
        assert lines[1..][i - 1] == lines[i];
      }
    }
  }

  /** No empty line is kept. */
  lemma {:induction false} NonEmptyDrops(lines: seq<string>)
    ensures forall i :: 0 <= i < |NonEmpty(lines)| ==> NonEmpty(lines)[i] != ""
    decreases |lines|
  {
    if lines != [] {
      NonEmptyDrops(lines[1..]);
      var r := NonEmpty(lines[1..]);
      if lines[0] != "" {
        var q := [lines[0]] + r;
        forall i | 0 < i < |q| ensures q[i] != "" {
          assert q[i] == r[i - 1];
        }
      }
    }
  }

  /** Trimming pieces without line feeds gives trimmed single lines. */
  lemma {:induction false} TrimAllLines(pieces: seq<string>, ws: set<char>)
    requires forall i :: 0 <= i < |pieces| ==> '\n' !in pieces[i]
    ensures TrimmedLines(TrimAll(pieces, ws), ws)
  {
    var t := TrimAll(pieces, ws);
    TrimAllAt(pieces, ws);
    forall i | 0 <= i < |t| ensures Trimmed(t[i], ws) && '\n' !in t[i] {
      assert t[i] == Trim(pieces[i], ws);
      TrimKeepsLine(pieces[i], ws);
      TrimIsTrimmed(pieces[i], ws);
    }
  }

  /** Dropping empty lines keeps only lines that were there. */
  lemma {:induction false} NonEmptyLines(lines: seq<string>, ws: set<char>)
    requires TrimmedLines(lines, ws)
    ensures TrimmedLines(NonEmpty(lines), ws)
    decreases |lines|
  {
    if lines != [] {
      assert TrimmedLines(lines[1..], ws) by {
        forall i | 0 <= i < |lines[1..]| ensures Trimmed(lines[1..][i], ws) && '\n' !in lines[1..][i] {
          assert lines[1..][i] == lines[i + 1];
        }
      }
      NonEmptyLines(lines[1..], ws);
      var r := NonEmpty(lines[1..]);
      if lines[0] != "" {
        var q := [lines[0]] + r;
        forall i | 0 <= i < |q| ensures Trimmed(q[i], ws) && '\n' !in q[i] {
          if i > 0 { assert q[i] == r[i - 1]; }
        }
      }
    }
  }

  lemma {:induction false} SplitSingleLine(a: string)
    requires '\n' !in a
    ensures Split(a) == [a]
    decreases |a|
  {
    if a != [] {
      assert '\n' !in a[1..] by {
        forall c | c in a[1..] ensures c != '\n' { assert c in a; }
      }
      SplitSingleLine(a[1..]);
      assert [a[0]] + a[1..] == a;
    }
  }

  /** A line feed after a single line splits it off from the rest. */
  lemma {:induction false} SplitAfterLine(a: string, b: string)
    requires '\n' !in a
    ensures Split(a + "\n" + b) == [a] + Split(b)
    decreases |a|
  {
    var s := a + "\n" + b;
    if a == [] {
      assert s[1..] == b;
    } else {
      assert s[0] == a[0] && a[0] != '\n';
      assert s[1..] == a[1..] + "\n" + b;
      assert '\n' !in a[1..] by {
        forall c | c in a[1..] ensures c != '\n' { assert c in a; }
      }
      SplitAfterLine(a[1..], b);
      assert [a[0]] + a[1..] == a;
    }
  }

  /** Splitting a "\n\n"-join of single lines gives the parts with empty lines between them. */
  lemma {:induction false} SplitJoin(parts: seq<string>)
    requires |parts| >= 1
    requires forall i :: 0 <= i < |parts| ==> '\n' !in parts[i]
    ensures Split(Join(parts, "\n\n")) == Interleave(parts)
    decreases |parts|
  {
    if |parts| == 1 {
      SplitSingleLine(parts[0]);
    } else {
      var rest := Join(parts[1..], "\n\n");
      assert Join(parts, "\n\n") == parts[0] + "\n" + ("\n" + rest);
      SplitAfterLine(parts[0], "\n" + rest);
      SplitAfterLine("", rest);
      assert "" + "\n" + rest == "\n" + rest;
      SplitJoin(parts[1..]);
    }
  }

  lemma TrimAllCons(x: string, l: seq<string>, ws: set<char>)
    ensures TrimAll([x] + l, ws) == [Trim(x, ws)] + TrimAll(l, ws)
  {
    assert ([x] + l)[1..] == l;
  }

  lemma NonEmptyCons(x: string, l: seq<string>)
    ensures NonEmpty([x] + l) == if x == "" then NonEmpty(l) else [x] + NonEmpty(l)
  {
    assert ([x] + l)[1..] == l;
  }

  /** Filtering two runs of lines one after the other filters each in turn: together with
      `NonEmptyCons` this fixes the order of the kept lines. */
  lemma {:induction false} NonEmptyAppend(a: seq<string>, b: seq<string>)
    ensures NonEmpty(a + b) == NonEmpty(a) + NonEmpty(b)
    decreases |a|
  {
    if a == [] {
      assert a + b == b;
    } else {
      assert a + b == [a[0]] + (a[1..] + b);
      NonEmptyCons(a[0], a[1..] + b);
      NonEmptyAppend(a[1..], b);
    }
  }

  /** The trim of an interleaving of trim-fixed parts leaves it as it is. */
  lemma {:induction false} TrimAllInterleave(parts: seq<string>, ws: set<char>)
    requires |parts| >= 1
    requires Trim("", ws) == ""
    requires forall i :: 0 <= i < |parts| ==> Trim(parts[i], ws) == parts[i]
    ensures TrimAll(Interleave(parts), ws) == Interleave(parts)
    decreases |parts|
  {
    var p := parts[0];
    if |parts| == 1 {
      TrimAllCons(p, [], ws);
    } else {
      var x := Interleave(parts[1..]);
      assert Interleave(parts) == [p] + ([""] + x);
      TrimAllCons(p, [""] + x, ws);
      TrimAllCons("", x, ws);
      assert forall i :: 0 <= i < |parts[1..]| ==> Trim(parts[1..][i], ws) == parts[1..][i] by {
        forall i | 0 <= i < |parts[1..]| ensures Trim(parts[1..][i], ws) == parts[1..][i] {
          assert parts[1..][i] == parts[i + 1];
        }
      }
      TrimAllInterleave(parts[1..], ws);
    }
  }

  /** Dropping the empty lines of an interleaving of non-empty parts gives the parts back. */
  lemma {:induction false} NonEmptyInterleave(parts: seq<string>)
    requires |parts| >= 1
    requires forall i :: 0 <= i < |parts| ==> parts[i] != ""
    ensures NonEmpty(Interleave(parts)) == parts
    decreases |parts|
  {
    var p := parts[0];
    if |parts| == 1 {
      NonEmptyCons(p, []);
    } else {
      var x := Interleave(parts[1..]);
      assert Interleave(parts) == [p] + ([""] + x);
      NonEmptyCons(p, [""] + x);
      NonEmptyCons("", x);
      assert forall i :: 0 <= i < |parts[1..]| ==> parts[1..][i] != "" by {
        forall i | 0 <= i < |parts[1..]| ensures parts[1..][i] != "" {
          assert parts[1..][i] == parts[i + 1];
        }
      }
      NonEmptyInterleave(parts[1..]);
      assert [p] + parts[1..] == parts;
    }
  }

  /** Trimming and dropping empty lines recovers the parts of an interleaving. */
  lemma {:induction false} KeptOfInterleave(parts: seq<string>, ws: set<char>)
    requires |parts| >= 1
    requires forall i :: 0 <= i < |parts| ==> parts[i] != "" && Trimmed(parts[i], ws)
    ensures NonEmpty(TrimAll(Interleave(parts), ws)) == parts
  {
    forall i | 0 <= i < |parts| ensures Trim(parts[i], ws) == parts[i] {
      TrimOfTrimmed(parts[i], ws);
    }
    TrimOfTrimmed("", ws);
    TrimAllInterleave(parts, ws);
    NonEmptyInterleave(parts);
  }

  /** Splitting white space only gives pieces of white space only. */
  lemma {:induction false} BlankPieces(s: string, ws: set<char>)
    requires AllSpace(s, ws)
    ensures forall i :: 0 <= i < |Split(s)| ==> AllSpace(Split(s)[i], ws)
    decreases |s|
  {
    if s != [] {
      assert AllSpace(s[1..], ws) by {
        forall i | 0 <= i < |s[1..]| ensures s[1..][i] in ws { assert s[1..][i] == s[i + 1]; }
      }
      BlankPieces(s[1..], ws);
      var rest := Split(s[1..]);
      if s[0] == '\n' {
        var r := [""] + rest;
        assert r == Split(s);
        forall i | 0 <= i < |r| ensures AllSpace(r[i], ws) {
          if i > 0 { assert r[i] == rest[i - 1]; }
        }
      } else {
        var h := [s[0]] + rest[0];
        assert AllSpace(h, ws) by {
          forall j | 0 <= j < |h| ensures h[j] in ws {
            if j > 0 { assert h[j] == rest[0][j - 1]; }
          }
        }
        var r := [h] + rest[1..];
        assert r == Split(s);
        forall i | 0 <= i < |r| ensures AllSpace(r[i], ws) {
          if i > 0 { assert r[i] == rest[i]; }
        }
      }
    }
  }

  lemma {:induction false} NonEmptyOfBlanks(lines: seq<string>)
    requires forall i :: 0 <= i < |lines| ==> lines[i] == ""
    ensures NonEmpty(lines) == []
    decreases |lines|
  {
    if lines != [] {
      NonEmptyOfBlanks(lines[1..]);
    }
  }

  // ---------------------------------------------------------------- properties of cleanContent

  /** A join begins with its first part. */
  lemma {:induction false} JoinHead(parts: seq<string>, sep: string)
    requires |parts| >= 1
    ensures |Join(parts, sep)| >= |parts[0]| && Join(parts, sep)[..|parts[0]|] == parts[0]
  {
    if |parts| > 1 {
      var j := Join(parts, sep);
      assert j == parts[0] + (sep + Join(parts[1..], sep));
    }
  }

  /** The result is the kept paragraphs separated by "\n\n": splitting it on line feeds gives each
      paragraph (non-empty, trimmed, one line) with one empty line between neighbours. */
  lemma {:induction false} CleanSegments(s: string, ws: set<char>)
    ensures CleanWith(s, ws) == "" <==> Lines(s, ws) == []
    ensures Lines(s, ws) != [] ==> Split(CleanWith(s, ws)) == Interleave(Lines(s, ws))
  {
    var ls := Lines(s, ws);
    var c := CleanWith(s, ws);
    assert c == Join(ls, "\n\n");
    if ls != [] {
      JoinHead(ls, "\n\n");
      assert ls[0] != "";
      assert forall i :: 0 <= i < |ls| ==> '\n' !in ls[i];
      SplitJoin(ls);
    }
  }

  /** With no paragraphs the result is empty, and empty content has no paragraphs. */
  lemma EmptyLines(ws: set<char>)
    ensures Lines("", ws) == []
  {
    assert Split("") == [""];
    TrimOfTrimmed("", ws);
    assert TrimAll([""], ws) == [""];
  }

  /** Normalising twice gives the same string as normalising once. */
  lemma {:induction false} CleanIdempotent(s: string, ws: set<char>)
    ensures CleanWith(CleanWith(s, ws), ws) == CleanWith(s, ws)
  {
    var ls := Lines(s, ws);
    var c := CleanWith(s, ws);
    assert c == Join(ls, "\n\n");
    if ls == [] {
      EmptyLines(ws);
    } else {
      assert forall i :: 0 <= i < |ls| ==> '\n' !in ls[i];
      SplitJoin(ls);
      KeptOfInterleave(ls, ws);
      assert Lines(c, ws) == NonEmpty(TrimAll(Split(c), ws));
      assert Lines(c, ws) == ls;
    }
  }

  /** A trimmed string without line feeds is one paragraph and is kept as it is. */
  lemma {:induction false} CleanSingleParagraph(s: string, ws: set<char>)
    requires s != "" && Trimmed(s, ws) && '\n' !in s
    ensures CleanWith(s, ws) == s
  {
    SplitSingleLine(s);
    TrimOfTrimmed(s, ws);
    assert TrimAll([s], ws) == [s];
  }

  /** Empty or white-space-only content normalises to "". */
  lemma {:induction false} CleanBlank(s: string, ws: set<char>)
    requires AllSpace(s, ws)
    ensures CleanWith(s, ws) == ""
  {
    var pieces := Split(s);
    BlankPieces(s, ws);
    var trimmed := TrimAll(pieces, ws);
    TrimAllAt(pieces, ws);
    forall i | 0 <= i < |trimmed| ensures trimmed[i] == "" {
      assert trimmed[i] == Trim(pieces[i], ws);
    }
    NonEmptyOfBlanks(trimmed);
  }

  /** The intro and fact slides' guarded form, `content ? cleanContent : ""`: an absent or empty
      content gives "", which is exactly what normalising "" gives, so the guard only spares the
      call and both read as normalising the content or "". */
  function CleanOrEmpty(content: Option<string>): (text: string)
    ensures text == Clean(if content.Some? then content.value else "")
    ensures content.None? ==> text == ""
  {
    EmptyLines(JsSpace);
    if content.None? || content.value == "" then "" else Clean(content.value)
  }
}
