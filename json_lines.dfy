/**
 * The batch body format: serialized events joined by single newline bytes
 * (JSON lines).  A serialized event is never empty and never holds a raw
 * newline, because compact JSON escapes newlines inside strings.
 */
module JsonLines {
  import opened GoValues

  const NL: byte := 10

  /** One serialized event. */
  type Line = s: seq<byte> | |s| > 0 && NL !in s witness [123, 125]

  /** The lines joined with one `NL` between neighbours and none around them. */
  function Join(ls: seq<Line>): seq<byte>
    decreases |ls|
  {
    if |ls| == 0 then []
    else if |ls| == 1 then ls[0]
    else Join(ls[..|ls| - 1]) + [NL] + ls[|ls| - 1]
  }

  /** Appending a line to a non-empty batch writes one separator and the line. */
  lemma JoinSnoc(ls: seq<Line>, l: Line)
    ensures Join(ls + [l]) == if ls == [] then l else Join(ls) + [NL] + l
  {
    assert (ls + [l])[..|ls|] == ls;
  }

  /** Total size of the lines, separators not included. */
  function TotalSize(ls: seq<Line>): nat {
    if ls == [] then 0 else TotalSize(ls[..|ls| - 1]) + |ls[|ls| - 1]|
  }

  /**
   * N lines give exactly N - 1 separators, the body neither starts nor ends
   * with one, and its size is the lines' sizes plus the separators.
   */
  lemma {:induction false} JoinSeparators(ls: seq<Line>)
    requires |ls| > 0
    ensures multiset(Join(ls))[NL] == |ls| - 1
    ensures Join(ls)[0] != NL && Join(ls)[|Join(ls)| - 1] != NL
    ensures |Join(ls)| == TotalSize(ls) + |ls| - 1
  {
    var l := ls[|ls| - 1];
    assert l[0] in l && l[|l| - 1] in l;
    if |ls| == 1 {
      assert ls == [] + [l];
      assert multiset(l)[NL] == 0;
    } else {
      var init := ls[..|ls| - 1];
      JoinSeparators(init);
      assert multiset(l)[NL] == 0;
      assert Join(ls) == Join(init) + [NL] + l;
      assert multiset(Join(ls)) == multiset(Join(init)) + multiset([NL]) + multiset(l);
    }
  }

  /** The pieces of `s` between newline bytes, as `strings.Split(s, "\n")` gives them. */
  function Split(s: seq<byte>): (r: seq<seq<byte>>)
    ensures |r| > 0
    decreases |s|
  {
    if s == [] then [[]]
    else
      var init := Split(s[..|s| - 1]);
      if s[|s| - 1] == NL then init + [[]]
      else init[..|init| - 1] + [init[|init| - 1] + [s[|s| - 1]]]
  }

  /** The lines of a batch body; the empty body holds no lines. */
  function Decode(payload: seq<byte>): seq<seq<byte>> {
    if payload == [] then [] else Split(payload)
  }

  /** One more byte: a newline opens a new piece, any other byte extends the last one. */
  lemma SplitSnoc(s: seq<byte>, b: byte)
    ensures var r := Split(s);
      Split(s + [b]) == if b == NL then r + [[]] else r[..|r| - 1] + [r[|r| - 1] + [b]]
  {
    assert (s + [b])[..|s|] == s;
  }

  /** Extending the last piece by `t` and then by `b` extends it by `t + [b]`. */
  lemma ExtendLast(r: seq<seq<byte>>, mid: seq<seq<byte>>, t: seq<byte>, b: byte)
    requires |r| > 0 && mid == r[..|r| - 1] + [r[|r| - 1] + t]
    ensures mid[..|mid| - 1] + [mid[|mid| - 1] + [b]] == r[..|r| - 1] + [r[|r| - 1] + (t + [b])]
  {
    assert mid[..|mid| - 1] == r[..|r| - 1];
    assert (r[|r| - 1] + t) + [b] == r[|r| - 1] + (t + [b]);
  }

  /** Bytes without a newline extend the last piece. */
  lemma {:induction false} SplitExtend(s: seq<byte>, t: seq<byte>)
    requires NL !in t
    ensures var r := Split(s);
      Split(s + t) == r[..|r| - 1] + [r[|r| - 1] + t]
    decreases |t|
  {
    var r := Split(s);
    if t == [] {
      assert s + t == s;
      assert r[|r| - 1] + t == r[|r| - 1];
      assert r == r[..|r| - 1] + [r[|r| - 1]];
    } else {
      var t', b := t[..|t| - 1], t[|t| - 1];
      assert t == t' + [b];
      SplitExtend(s, t');
      assert s + t == (s + t') + [b];
      SplitSnoc(s + t', b);
      ExtendLast(r, Split(s + t'), t', b);
    }
  }

  /** After a separator, a line without newlines becomes one new piece. */
  lemma SplitAfterSeparator(p: seq<byte>, q: seq<seq<byte>>, l: seq<byte>)
    requires Split(p) == q + [[]] && NL !in l
    ensures Split(p + l) == q + [l]
  {
    SplitExtend(p, l);
    var r := q + [[]];
    assert r[..|r| - 1] == q;
    assert r[|r| - 1] + l == l;
  }

  /** A single line decodes to itself. */
  lemma DecodeOne(l: Line)
    ensures Decode(Join([l])) == [l]
  {
    SplitAfterSeparator([], [], l);
    assert [] + l == l;
  }

  /** Decoding respects appending one line to a non-empty batch. */
  lemma DecodeSnoc(init: seq<Line>, l: Line)
    requires |init| > 0 && Decode(Join(init)) == init
    ensures Decode(Join(init + [l])) == init + [l]
  {
    var j := Join(init);
    JoinSnoc(init, l);
    SplitSnoc(j, NL);
    SplitAfterSeparator(j + [NL], init, l);
  }

  /** Decoding a joined batch gives its lines back: the body determines the batch. */
  lemma {:induction false} DecodeJoin(ls: seq<Line>)
    ensures Decode(Join(ls)) == ls
    decreases |ls|
  {
    if |ls| == 1 {
      DecodeOne(ls[0]);
      assert ls == [ls[0]];
    } else if |ls| > 1 {
      var init := ls[..|ls| - 1];
      DecodeJoin(init);
      DecodeSnoc(init, ls[|ls| - 1]);
      assert ls == init + [ls[|ls| - 1]];
    }
  }
}
