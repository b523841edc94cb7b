/**
 * The note splitter of `splitNotes.js`: the input text is split at every
 * line that is exactly "---", each piece is trimmed, and each non-empty
 * piece is written to `chunk_<n>.txt`, n being the piece's position
 * counted from 1. File writes are modelled as a sequence of writes.
 */
module SplitNotes {
  import opened Text

  /** The line terminators of JavaScript regular expressions. */
  predicate IsLineTerminator(c: char) {
    c == '\n' || c == '\r' || c == '\U{2028}' || c == '\U{2029}'
  }

  /** `/^---$/m` matches at position i: three dashes with a line start before them and a line end after them. */
  predicate DelimiterAt(s: string, i: nat) {
    && i + 3 <= |s|
    && s[i] == '-' && s[i + 1] == '-' && s[i + 2] == '-'
    && (i == 0 || IsLineTerminator(s[i - 1]))
    && (i + 3 == |s| || IsLineTerminator(s[i + 3]))
  }

  /** `String.prototype.split` with that pattern, from a piece that starts at p, searching at q. */
  function SplitFrom(s: string, p: nat, q: nat): (r: seq<string>)
    requires p <= q <= |s|
    ensures |r| >= 1
    decreases |s| - q
  {
    if q + 3 > |s| then [s[p..]]
    else if DelimiterAt(s, q) then [s[p..q]] + SplitFrom(s, q + 3, q + 3)
    else SplitFrom(s, p, q + 1)
  }

  /** `input.split(/^---$/m)`. */
  function Split(s: string): (r: seq<string>)
    ensures |r| >= 1
  {
    SplitFrom(s, 0, 0)
  }

  /** The pieces put back together with "---" between them. */
  function Join(parts: seq<string>): string
    requires |parts| >= 1
  {
    if |parts| == 1 then parts[0] else parts[0] + "---" + Join(parts[1..])
  }

  lemma {:induction false} JoinSplitFrom(s: string, p: nat, q: nat)
    requires p <= q <= |s|
    ensures Join(SplitFrom(s, p, q)) == s[p..]
    decreases |s| - q
  {
    if q + 3 > |s| {
    } else if DelimiterAt(s, q) {
      var rest := SplitFrom(s, q + 3, q + 3);
      assert SplitFrom(s, p, q) == [s[p..q]] + rest;
      JoinCons(s[p..q], rest);
      JoinSplitFrom(s, q + 3, q + 3);
      DelimiterSplitsText(s, p, q);
    } else {
      JoinSplitFrom(s, p, q + 1);
    }
  }

  lemma JoinCons(first: string, rest: seq<string>)
    requires |rest| >= 1
    ensures Join([first] + rest) == first + "---" + Join(rest)
  {
    assert ([first] + rest)[1..] == rest;
  }

  /** The text from p is the text before a delimiter, the delimiter, and the text after it. */
  lemma DelimiterSplitsText(s: string, p: nat, q: nat)
    requires p <= q && DelimiterAt(s, q)
    ensures s[p..] == s[p..q] + "---" + s[q + 3..]
  {
    assert s[q..q + 3] == "---";
    assert s[q..] == s[q..q + 3] + s[q + 3..];
    assert s[p..] == s[p..q] + s[q..];
  }

  /** Splitting loses nothing: rejoining the pieces with "---" gives back the input. */
  lemma SplitRejoins(s: string)
    ensures Join(Split(s)) == s
  {
    JoinSplitFrom(s, 0, 0);
  }

  /** The position in the text right after piece k: pieces 0..k joined with "---". */
  function CutAfter(parts: seq<string>, k: nat): nat
    requires k < |parts|
  {
    |Join(parts[..k + 1])|
  }

  lemma CutAfterCons(first: string, rest: seq<string>, k: nat)
    requires 1 <= k <= |rest|
    ensures CutAfter([first] + rest, k) == |first| + 3 + CutAfter(rest, k - 1)
  {
    var parts := [first] + rest;
    assert parts[..k + 1] == [first] + rest[..k];
    JoinCons(first, rest[..k]);
  }

  lemma CutAfterFirst(first: string, rest: seq<string>)
    ensures CutAfter([first] + rest, 0) == |first|
  {
    assert ([first] + rest)[..1] == [first];
  }

  /** Two delimiter lines never overlap: the line end after one is no dash. */
  lemma DelimitersDoNotOverlap(s: string, i: nat, j: nat)
    requires DelimiterAt(s, i) && DelimiterAt(s, j) && i < j
    ensures i + 3 <= j
  {
  }

  /** The cut after piece k of the pieces from p, k not the last, lies at a delimiter. */
  lemma {:induction false} SplitFromCutIsDelimiter(s: string, p: nat, q: nat, k: nat)
    requires p <= q <= |s|
    requires k < |SplitFrom(s, p, q)| - 1
    ensures DelimiterAt(s, p + CutAfter(SplitFrom(s, p, q), k))
    decreases |s| - q
  {
    var r := SplitFrom(s, p, q);
    if q + 3 > |s| {
      // A single piece has no cut.
    } else if DelimiterAt(s, q) {
      var rest := SplitFrom(s, q + 3, q + 3);
      assert r == [s[p..q]] + rest;
      assert |r| == |rest| + 1;
      if k == 0 {
        CutAfterFirst(s[p..q], rest);
        assert p + CutAfter(r, k) == q;
      } else {
        CutAfterCons(s[p..q], rest, k);
        SplitFromCutIsDelimiter(s, q + 3, q + 3, k - 1);
        assert p + CutAfter(r, k) == q + 3 + CutAfter(rest, k - 1);
      }
    } else {
      assert r == SplitFrom(s, p, q + 1);
      SplitFromCutIsDelimiter(s, p, q + 1, k);
    }
  }

  /** Searching from q with no delimiter in p..q-1, a delimiter at j from p on is a cut. */
  lemma {:induction false} SplitFromFindsDelimiter(s: string, p: nat, q: nat, j: nat)
    requires p <= q <= |s|
    requires forall i :: p <= i < q ==> !DelimiterAt(s, i)
    requires p <= j && DelimiterAt(s, j)
    ensures exists k :: 0 <= k < |SplitFrom(s, p, q)| - 1 && j == p + CutAfter(SplitFrom(s, p, q), k)
    decreases |s| - q
  {
    var r := SplitFrom(s, p, q);
    if q + 3 > |s| {
      // A delimiter needs three characters, so j < q, which the search has passed.
    } else if DelimiterAt(s, q) {
      var rest := SplitFrom(s, q + 3, q + 3);
      assert r == [s[p..q]] + rest;
      if j == q {
        CutAfterFirst(s[p..q], rest);
      } else {
        DelimitersDoNotOverlap(s, q, j);
        SplitFromFindsDelimiter(s, q + 3, q + 3, j);
        var k :| 0 <= k < |rest| - 1 && j == q + 3 + CutAfter(rest, k);
        CutAfterCons(s[p..q], rest, k + 1);
        assert j == p + CutAfter(r, k + 1);
      }
    } else {
      var next := SplitFrom(s, p, q + 1);
      assert r == next;
      SplitFromFindsDelimiter(s, p, q + 1, j);
      var k :| 0 <= k < |next| - 1 && j == p + CutAfter(next, k);
    }
  }

  /**
   * The split cuts exactly at the delimiter lines: the position after each
   * piece but the last is a "---" line, and every "---" line is such a position.
   */
  lemma SplitCutsExactlyAtDelimiters(s: string)
    ensures forall k :: 0 <= k < |Split(s)| - 1 ==> DelimiterAt(s, CutAfter(Split(s), k))
    ensures forall j :: DelimiterAt(s, j) ==> exists k :: 0 <= k < |Split(s)| - 1 && j == CutAfter(Split(s), k)
  {
    var r := Split(s);
    assert r == SplitFrom(s, 0, 0);
    forall k | 0 <= k < |r| - 1 ensures DelimiterAt(s, CutAfter(r, k)) {
      SplitFromCutIsDelimiter(s, 0, 0, k);
    }
    forall j | DelimiterAt(s, j) ensures exists k :: 0 <= k < |r| - 1 && j == CutAfter(r, k) {
      SplitFromFindsDelimiter(s, 0, 0, j);
      var k :| 0 <= k < |r| - 1 && j == 0 + CutAfter(r, k);
    }
  }

  /** A "---" line between two lines separates them; a lone "---" leaves two empty pieces. */
  lemma DelimiterLineSplits()
    ensures Split("a\n---\nb") == ["a\n", "\nb"]
    ensures Split("---") == ["", ""]
  {
    var t := "a\n---\nb";
    assert !DelimiterAt(t, 0) && !DelimiterAt(t, 1) && DelimiterAt(t, 2);
    assert t[5..] == "\nb" && t[..2] == "a\n";
    assert SplitFrom(t, 5, 5) == ["\nb"];
    assert SplitFrom(t, 0, 2) == [t[..2]] + SplitFrom(t, 5, 5);
    assert SplitFrom(t, 0, 1) == SplitFrom(t, 0, 2);
    assert DelimiterAt("---", 0);
    assert "---"[3..] == "" && "---"[0..0] == "";
    assert SplitFrom("---", 3, 3) == [""];
    assert SplitFrom("---", 0, 0) == [""] + SplitFrom("---", 3, 3);
  }

  /** A "---" that is not on a line of its own is not a delimiter. */
  lemma InlineDashesDoNotSplit()
    ensures Split("a---b") == ["a---b"]
    ensures Split("----") == ["----"]
  {
    assert !DelimiterAt("a---b", 1);
    assert !DelimiterAt("----", 0) && !DelimiterAt("----", 1);
  }

  /** The white space that `String.prototype.trim` removes: white space and line terminators. */
  predicate IsTrimmable(c: char) {
    || c == '\t' || c == '\U{000B}' || c == '\U{000C}' || c == ' ' || c == '\U{00A0}' || c == '\U{FEFF}'
    || c == '\U{1680}' || ('\U{2000}' <= c <= '\U{200A}') || c == '\U{202F}' || c == '\U{205F}' || c == '\U{3000}'
    || IsLineTerminator(c)
  }

  function TrimStart(s: string): (r: string)
    ensures |r| <= |s|
  {
    if s != [] && IsTrimmable(s[0]) then TrimStart(s[1..]) else s
  }

  function TrimEnd(s: string): (r: string)
    ensures |r| <= |s|
  {
    if s != [] && IsTrimmable(s[|s| - 1]) then TrimEnd(s[..|s| - 1]) else s
  }

  /** `String.prototype.trim`. */
  function Trim(s: string): (r: string)
    ensures |r| <= |s|
  {
    TrimEnd(TrimStart(s))
  }

  /** `trimStart` drops exactly the white space at the front. */
  lemma {:induction false} TrimStartDropsLeadingSpace(s: string)
    ensures var r := TrimStart(s);
            && r == s[|s| - |r|..]
            && (forall i :: 0 <= i < |s| - |r| ==> IsTrimmable(s[i]))
            && (r != [] ==> !IsTrimmable(r[0]))
  {
    if s != [] && IsTrimmable(s[0]) {
      TrimStartDropsLeadingSpace(s[1..]);
    }
  }

  /** `trimEnd` drops exactly the white space at the back. */
  lemma {:induction false} TrimEndDropsTrailingSpace(s: string)
    ensures var r := TrimEnd(s);
            && r == s[..|r|]
            && (forall i :: |r| <= i < |s| ==> IsTrimmable(s[i]))
            && (r != [] ==> !IsTrimmable(r[|r| - 1]))
  {
    if s != [] && IsTrimmable(s[|s| - 1]) {
      TrimEndDropsTrailingSpace(s[..|s| - 1]);
    }
  }

  /** The trimmed text is a piece of the input with no white space at either end, empty exactly when the input is all white space. */
  lemma TrimProperties(s: string)
    ensures Trim(s) == [] <==> forall i :: 0 <= i < |s| ==> IsTrimmable(s[i])
    ensures Trim(s) != [] ==> !IsTrimmable(Trim(s)[0]) && !IsTrimmable(Trim(s)[|Trim(s)| - 1])
    ensures var a := |s| - |TrimStart(s)|; a + |Trim(s)| <= |s| && Trim(s) == s[a..a + |Trim(s)|]
  {
    TrimIsSlice(s);
    TrimEmptyIffAllSpace(s);
    TrimEndsWithText(s);
  }

  lemma TrimIsSlice(s: string)
    ensures var a := |s| - |TrimStart(s)|; a + |Trim(s)| <= |s| && Trim(s) == s[a..a + |Trim(s)|]
  {
    var t := TrimStart(s);
    var a := |s| - |t|;
    TrimStartDropsLeadingSpace(s);
    TrimEndDropsTrailingSpace(t);
    assert t == s[a..];
    assert Trim(s) == t[..|Trim(s)|];
  }

  lemma TrimEmptyIffAllSpace(s: string)
    ensures Trim(s) == [] <==> forall i :: 0 <= i < |s| ==> IsTrimmable(s[i])
  {
    var t := TrimStart(s);
    var a := |s| - |t|;
    TrimStartDropsLeadingSpace(s);
    TrimEndDropsTrailingSpace(t);
    if Trim(s) == [] {
      assert t == [];
    } else {
      assert !IsTrimmable(s[a]) by {
        assert Trim(s)[0] == t[0] == s[a];
      }
    }
  }

  lemma TrimEndsWithText(s: string)
    ensures Trim(s) != [] ==> !IsTrimmable(Trim(s)[0]) && !IsTrimmable(Trim(s)[|Trim(s)| - 1])
  {
    var t := TrimStart(s);
    TrimStartDropsLeadingSpace(s);
    TrimEndDropsTrailingSpace(t);
    if Trim(s) != [] {
      assert Trim(s)[0] == t[0];
    }
  }

  /** `chunk_${index + 1}.txt`. */
  function ChunkFileName(index: nat): (r: string)
    ensures |r| >= 11 && r[..6] == "chunk_" && r[|r| - 4..] == ".txt"
  {
    "chunk_" + NatToString(index + 1) + ".txt"
  }

  /** Between the fixed prefix and suffix a file name holds the piece's number. */
  lemma ChunkFileNameMiddle(index: nat)
    ensures var name := ChunkFileName(index); |name| >= 10 && ParseNat(name[6..|name| - 4]) == index + 1
  {
    var m := NatToString(index + 1);
    var name := "chunk_" + m + ".txt";
    assert |name| == 10 + |m|;
    assert name[6..|name| - 4] == m;
    ParseNatToString(index + 1);
  }

  /** Different pieces are written to different files. */
  lemma ChunkFileNamesDistinct(i: nat, j: nat)
    requires i != j
    ensures ChunkFileName(i) != ChunkFileName(j)
  {
    ChunkFileNameMiddle(i);
    ChunkFileNameMiddle(j);
  }

  /** One `fs.writeFileSync` call. */
  datatype FileWrite = FileWrite(fileName: string, content: string)

  /** The positions among the first n pieces whose trimmed text is non-empty, in increasing order. */
  function SavedIndices(chunks: seq<string>, n: nat): (r: seq<nat>)
    requires n <= |chunks|
    ensures |r| <= n
    ensures forall k :: 0 <= k < |r| ==> r[k] < n
  {
    if n == 0 then []
    else
      var before := SavedIndices(chunks, n - 1);
      if Trim(chunks[n - 1]) != "" then before + [n - 1] else before
  }

  /** The saved positions are exactly those with non-empty trimmed text, strictly increasing. */
  lemma SavedIndicesProperties(chunks: seq<string>, n: nat)
    requires n <= |chunks|
    ensures var r := SavedIndices(chunks, n);
            && (forall k :: 0 <= k < |r| ==> Trim(chunks[r[k]]) != "")
            && (forall k, l :: 0 <= k < l < |r| ==> r[k] < r[l])
            && (forall i :: 0 <= i < n && Trim(chunks[i]) != "" ==> i in r)
  {
    SavedIndicesNonBlank(chunks, n);
    SavedIndicesIncreasing(chunks, n);
    SavedIndicesComplete(chunks, n);
  }

  lemma {:induction false} SavedIndicesNonBlank(chunks: seq<string>, n: nat)
    requires n <= |chunks|
    ensures forall k :: 0 <= k < |SavedIndices(chunks, n)| ==> Trim(chunks[SavedIndices(chunks, n)[k]]) != ""
  {
    if n > 0 {
      SavedIndicesNonBlank(chunks, n - 1);
      var before := SavedIndices(chunks, n - 1);
      var r := SavedIndices(chunks, n);
      forall k | 0 <= k < |r| ensures Trim(chunks[r[k]]) != "" {
        if k < |before| {
          assert r[k] == before[k];
        } else {
          assert r == before + [n - 1] && r[k] == n - 1;
        }
      }
    }
  }

  lemma {:induction false} SavedIndicesIncreasing(chunks: seq<string>, n: nat)
    requires n <= |chunks|
    ensures forall k, l :: 0 <= k < l < |SavedIndices(chunks, n)| ==> SavedIndices(chunks, n)[k] < SavedIndices(chunks, n)[l]
  {
    if n > 0 {
      SavedIndicesIncreasing(chunks, n - 1);
      var before := SavedIndices(chunks, n - 1);
      var r := SavedIndices(chunks, n);
      forall k, l | 0 <= k < l < |r| ensures r[k] < r[l] {
        assert r[k] == before[k] < n - 1;
        if l < |before| {
          assert r[l] == before[l];
        } else {
          assert r == before + [n - 1] && r[l] == n - 1;
        }
      }
    }
  }

  lemma {:induction false} SavedIndicesComplete(chunks: seq<string>, n: nat)
    requires n <= |chunks|
    ensures forall i :: 0 <= i < n && Trim(chunks[i]) != "" ==> i in SavedIndices(chunks, n)
  {
    if n > 0 {
      SavedIndicesComplete(chunks, n - 1);
      var before := SavedIndices(chunks, n - 1);
      var r := SavedIndices(chunks, n);
      forall i | 0 <= i < n && Trim(chunks[i]) != "" ensures i in r {
        if i < n - 1 {
          assert i in before;
          assert r == before || r == before + [n - 1];
        } else {
          assert r == before + [n - 1];
          assert r[|before|] == i;
        }
      }
    }
  }

  /** The writes for the pieces at positions `indices`. */
  function WritesFor(chunks: seq<string>, indices: seq<nat>): (w: seq<FileWrite>)
    requires forall k :: 0 <= k < |indices| ==> indices[k] < |chunks|
    ensures |w| == |indices|
  {
    seq(|indices|, k requires 0 <= k < |indices| => FileWrite(ChunkFileName(indices[k]), Trim(chunks[indices[k]])))
  }

  lemma WritesForAppend(chunks: seq<string>, indices: seq<nat>, i: nat)
    requires forall k :: 0 <= k < |indices| ==> indices[k] < |chunks|
    requires i < |chunks|
    ensures WritesFor(chunks, indices + [i]) == WritesFor(chunks, indices) + [FileWrite(ChunkFileName(i), Trim(chunks[i]))]
  {
    var longer := indices + [i];
    assert forall k :: 0 <= k < |indices| ==> longer[k] == indices[k];
  }

  /**
   * The `forEach` loop: one write per piece whose trimmed text is
   * non-empty, in the pieces' order, named after the piece's position.
   */
  method WriteChunks(chunks: seq<string>) returns (writes: seq<FileWrite>)
    ensures writes == WritesFor(chunks, SavedIndices(chunks, |chunks|))
  {
    writes := [];
    var index := 0;
    while index < |chunks|
      invariant 0 <= index <= |chunks|
      invariant writes == WritesFor(chunks, SavedIndices(chunks, index))
    {
      var trimmed := Trim(chunks[index]);
      ghost var before := SavedIndices(chunks, index);
      if trimmed != "" {
        assert SavedIndices(chunks, index + 1) == before + [index];
        WritesForAppend(chunks, before, index);
        writes := writes + [FileWrite(ChunkFileName(index), trimmed)];
      } else {
        assert SavedIndices(chunks, index + 1) == before;
      }
      index := index + 1;
    }
  }

  /** The whole script on one input text. */
  method SplitNotesScript(input: string) returns (writes: seq<FileWrite>)
    ensures writes == WritesFor(Split(input), SavedIndices(Split(input), |Split(input)|))
  {
    var chunks := Split(input);
    writes := WriteChunks(chunks);
  }

  /**
   * What is written: each write holds a non-empty trimmed piece and is named
   * after that piece's position; positions strictly increase; every piece
   * with non-empty trimmed text is written; file names never repeat.
   */
  lemma WritesProperties(chunks: seq<string>)
    ensures var idx := SavedIndices(chunks, |chunks|);
            var w := WritesFor(chunks, idx);
            && (forall k :: 0 <= k < |w| ==>
                  w[k].content == Trim(chunks[idx[k]]) && w[k].content != "" && w[k].fileName == ChunkFileName(idx[k]))
            && (forall k, l :: 0 <= k < l < |idx| ==> idx[k] < idx[l])
            && (forall i :: 0 <= i < |chunks| && Trim(chunks[i]) != "" ==> i in idx)
            && (forall k, l :: 0 <= k < l < |w| ==> w[k].fileName != w[l].fileName)
  {
    var idx := SavedIndices(chunks, |chunks|);
    SavedIndicesProperties(chunks, |chunks|);
    forall k, l | 0 <= k < l < |idx|
      ensures ChunkFileName(idx[k]) != ChunkFileName(idx[l])
    {
      ChunkFileNamesDistinct(idx[k], idx[l]);
    }
  }

  /** A one-character piece trims to nothing when the character is white space, else to itself. */
  lemma TrimOneChar(c: char)
    ensures Trim([c]) == if IsTrimmable(c) then "" else [c]
  {
    if IsTrimmable(c) {
      assert [c][1..] == [];
      assert TrimStart([c]) == [];
    } else {
      assert TrimStart([c]) == [c];
    }
  }

  /** Numbering keeps the gaps of skipped pieces: of "a", " ", "b" the files are chunk_1.txt and chunk_3.txt. */
  lemma NumberingKeepsGaps()
    ensures ChunkFileName(0) == "chunk_1.txt" && ChunkFileName(2) == "chunk_3.txt"
    ensures SavedIndices(["a", " ", "b"], 3) == [0, 2]
  {
    assert NatToString(1) == "1" && NatToString(3) == "3";
    TrimOneChar('a');
    TrimOneChar(' ');
    TrimOneChar('b');
    BlankMiddlePieceSkipped("a", " ", "b");
  }

  /** Of three pieces whose middle one is blank, the first and the third are saved. */
  lemma BlankMiddlePieceSkipped(x: string, y: string, z: string)
    requires Trim(x) != "" && Trim(y) == "" && Trim(z) != ""
    ensures SavedIndices([x, y, z], 3) == [0, 2]
  {
    var c := [x, y, z];
    assert SavedIndices(c, 1) == [0];
    assert SavedIndices(c, 2) == [0];
  }
}
