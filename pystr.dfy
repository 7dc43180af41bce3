/**
 * The few Python string operations the core relies on: `sep.join(parts)`,
 * `s.split("\n")`, and `s.split()` with no argument, which splits on runs of
 * whitespace and drops empty pieces.
 */
module PyStr {

  /** `sep.join(parts)` */
  function Join(parts: seq<string>, sep: string): string
  {
    if |parts| == 0 then ""
    else if |parts| == 1 then parts[0]
    else parts[0] + sep + Join(parts[1..], sep)
  }

  /**
   * The pieces of `s` between the characters satisfying `isSep`, empty pieces
   * included; `s` without separator gives `[s]`.
   */
  function SplitAt(s: string, isSep: char -> bool): (r: seq<string>)
    ensures |r| >= 1
  {
    if |s| == 0 then [""]
    else
      var rest := SplitAt(s[1..], isSep);
      if isSep(s[0]) then [""] + rest else [[s[0]] + rest[0]] + rest[1..]
  }

  /** No character of `s` is a separator. */
  predicate Avoids(s: string, isSep: char -> bool)
  {
    forall i :: 0 <= i < |s| ==> !isSep(s[i])
  }

  predicate IsNewline(c: char)
  {
    c == '\n'
  }

  /** The characters for which Python's `str.isspace()` holds. */
  predicate IsSpace(c: char)
  {
    c == ' ' || '\t' <= c <= '\r' || '\U{1c}' <= c <= '\U{1f}' ||
    c == '\U{85}' || c == '\U{a0}' || c == '\U{1680}' ||
    '\U{2000}' <= c <= '\U{200a}' || c == '\U{2028}' || c == '\U{2029}' ||
    c == '\U{202f}' || c == '\U{205f}' || c == '\U{3000}'
  }

  /** `s.split("\n")` */
  function Lines(s: string): seq<string>
  {
    SplitAt(s, IsNewline)
  }

  /** The non-empty strings of `ps`, in order. */
  function NonEmpty(ps: seq<string>): seq<string>
  {
    if ps == [] then []
    else (if ps[0] == [] then [] else [ps[0]]) + NonEmpty(ps[1..])
  }

  /** `s.split()`: the maximal runs of non-whitespace characters, in order. */
  function Words(s: string): seq<string>
  {
    NonEmpty(SplitAt(s, IsSpace))
  }

  /** A possible element of `s.split()`: non-empty and free of whitespace. */
  predicate IsWord(w: string)
  {
    w != [] && Avoids(w, IsSpace)
  }

  lemma {:induction false} SplitAtAvoids(s: string, isSep: char -> bool)
    ensures forall i :: 0 <= i < |SplitAt(s, isSep)| ==> Avoids(SplitAt(s, isSep)[i], isSep)
  {
    if |s| > 0 {
      SplitAtAvoids(s[1..], isSep);
    }
  }

  lemma {:induction false} SplitAtWhole(p: string, isSep: char -> bool)
    requires Avoids(p, isSep)
    ensures SplitAt(p, isSep) == [p]
  {
    if p != [] {
      SplitAtWhole(p[1..], isSep);
      assert [p[0]] + p[1..] == p;
    }
  }

  /** A separator-free prefix ends up as the first piece. */
  lemma {:induction false} SplitAtPrefix(p: string, rest: string, isSep: char -> bool)
    requires Avoids(p, isSep) && rest != [] && isSep(rest[0])
    ensures SplitAt(p + rest, isSep) == [p] + SplitAt(rest[1..], isSep)
  {
    if p == [] {
      assert p + rest == rest;
    } else {
      assert (p + rest)[1..] == p[1..] + rest;
      SplitAtPrefix(p[1..], rest, isSep);
      assert [p[0]] + p[1..] == p;
    }
  }

  /** Splitting a list joined with a separator gives the list back, when no part holds a separator. */
  lemma {:induction false} SplitAtJoin(parts: seq<string>, sep: char, isSep: char -> bool)
    requires |parts| >= 1 && isSep(sep)
    requires forall i :: 0 <= i < |parts| ==> Avoids(parts[i], isSep)
    ensures SplitAt(Join(parts, [sep]), isSep) == parts
  {
    if |parts| == 1 {
      SplitAtWhole(parts[0], isSep);
    } else {
      var rest := Join(parts[1..], [sep]);
      assert Join(parts, [sep]) == parts[0] + ([sep] + rest);
      SplitAtPrefix(parts[0], [sep] + rest, isSep);
      assert ([sep] + rest)[1..] == rest;
      SplitAtJoin(parts[1..], sep, isSep);
    }
  }

  /** `"\n".join(lines).split("\n") == lines` when no line holds a newline. */
  lemma LinesOfJoin(lines: seq<string>)
    requires |lines| >= 1
    requires forall i :: 0 <= i < |lines| ==> Avoids(lines[i], IsNewline)
    ensures Lines(Join(lines, "\n")) == lines
  {
    SplitAtJoin(lines, '\n', IsNewline);
  }

  lemma {:induction false} NonEmptyElements(ps: seq<string>)
    ensures forall i :: 0 <= i < |NonEmpty(ps)| ==> NonEmpty(ps)[i] != [] && NonEmpty(ps)[i] in ps
  {
    if ps != [] {
      NonEmptyElements(ps[1..]);
    }
  }

  lemma {:induction false} NonEmptyKeepsAll(ps: seq<string>)
    requires forall i :: 0 <= i < |ps| ==> ps[i] != []
    ensures NonEmpty(ps) == ps
  {
    if ps != [] {
      NonEmptyKeepsAll(ps[1..]);
      assert [ps[0]] + ps[1..] == ps;
    }
  }

  /** Every element of `s.split()` is a non-empty run of non-whitespace characters. */
  lemma WordsAreWords(s: string)
    ensures forall i :: 0 <= i < |Words(s)| ==> IsWord(Words(s)[i])
  {
    var pieces := SplitAt(s, IsSpace);
    SplitAtAvoids(s, IsSpace);
    NonEmptyElements(pieces);
    forall i | 0 <= i < |Words(s)|
      ensures IsWord(Words(s)[i])
    {
      var j :| 0 <= j < |pieces| && pieces[j] == Words(s)[i];
    }
  }

  /**
   * `" ".join(ws).split() == ws` for words: a vote reply that repeats a
   * candidate's space-joined items splits back into those items.
   */
  lemma WordsOfJoin(ws: seq<string>)
    requires forall i :: 0 <= i < |ws| ==> IsWord(ws[i])
    ensures Words(Join(ws, " ")) == ws
  {
    if ws == [] {
      assert SplitAt("", IsSpace) == [""];
      assert NonEmpty([""]) == [];
    } else {
      SplitAtJoin(ws, ' ', IsSpace);
      assert SplitAt(Join(ws, " "), IsSpace) == ws;
      NonEmptyKeepsAll(ws);
    }
  }
}
