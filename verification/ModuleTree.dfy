/** Module trees and their signatures (vllm/model_inspection.py). */
module ModuleTree {
  /** A child's name; a numeric one is its number. */
  datatype Name = Num(index: int) | Str(text: string)

  datatype Module = Module(info: string, children: seq<Child>)

  datatype Child = Child(name: Name, sub: Module)

  /** A line of a signature: the dotted path as a list, and the module's own label. */
  datatype Line = Line(path: seq<Name>, info: string)

  /** The signature: one line per module, in the order of named_modules. */
  function Signature(m: Module): seq<Line> {
    [Line([], m.info)] + ChildLines(m.children)
  }

  function ChildLines(cs: seq<Child>): seq<Line> {
    if cs == [] then [] else Block(cs[0]) + ChildLines(cs[1..])
  }

  function Block(c: Child): seq<Line> { Under(c.name, Signature(c.sub)) }

  function Under(name: Name, lines: seq<Line>): seq<Line> {
    seq(|lines|, i requires 0 <= i < |lines| => Line([name] + lines[i].path, lines[i].info))
  }

  /** Only the first line of a signature has the empty path. */
  lemma {:induction false} PathsBelow(m: Module, i: nat)
    requires 0 < i < |Signature(m)|
    ensures |Signature(m)[i].path| > 0
  {
    ChildPaths(m.children, i - 1);
  }

  lemma {:induction false} ChildPaths(cs: seq<Child>, i: nat)
    requires i < |ChildLines(cs)|
    ensures |ChildLines(cs)[i].path| > 0
  {
    if cs != [] {
      var n := |Signature(cs[0].sub)|;
      if n <= i { ChildPaths(cs[1..], i - n); }
    }
  }

  /** Equal signatures only come from equal trees. */
  lemma {:induction false} SignatureDetermines(a: Module, b: Module)
    requires Signature(a) == Signature(b)
    ensures a == b
    decreases a
  {
    assert Signature(a)[0] == Signature(b)[0];
    assert ChildLines(a.children) == Signature(a)[1..] && ChildLines(b.children) == Signature(b)[1..];
    ChildLinesDetermine(a.children, b.children);
  }

  lemma {:induction false} ChildLinesDetermine(cs: seq<Child>, ds: seq<Child>)
    requires ChildLines(cs) == ChildLines(ds)
    ensures cs == ds
    decreases cs
  {
    if cs == [] || ds == [] {
      NoLinesNoChildren(cs);
      NoLinesNoChildren(ds);
    } else {
      var c, d := cs[0], ds[0];
      FirstLine(cs);
      FirstLine(ds);
      SameFirstBlock(cs, ds);
      assert Block(c) == ChildLines(cs)[..|Block(c)|] && Block(d) == ChildLines(ds)[..|Block(d)|];
      BlockDetermines(c, d);
      assert ChildLines(cs[1..]) == ChildLines(cs)[|Block(c)|..] && ChildLines(ds[1..]) == ChildLines(ds)[|Block(d)|..];
      ChildLinesDetermine(cs[1..], ds[1..]);
      assert cs == [c] + cs[1..] && ds == [d] + ds[1..];
    }
  }

  lemma {:induction false} BlockDetermines(c: Child, d: Child)
    requires c.name == d.name && Block(c) == Block(d)
    ensures c == d
    decreases c
  {
    UnderDetermines(c.name, Signature(c.sub), Signature(d.sub));
    SignatureDetermines(c.sub, d.sub);
  }

  lemma NoLinesNoChildren(cs: seq<Child>)
    ensures ChildLines(cs) == [] <==> cs == []
  {
    if cs != [] { FirstLine(cs); }
  }

  lemma FirstLine(cs: seq<Child>)
    requires cs != []
    ensures ChildLines(cs) != [] && ChildLines(cs)[0] == Line([cs[0].name], cs[0].sub.info)
  {
    var c := cs[0];
    assert |Signature(c.sub)| > 0 && Signature(c.sub)[0] == Line([], c.sub.info);
    assert |Block(c)| == |Signature(c.sub)|;
    assert Block(c)[0] == Line([c.name], c.sub.info);
  }

  lemma UnderDetermines(name: Name, s: seq<Line>, t: seq<Line>)
    requires Under(name, s) == Under(name, t)
    ensures s == t
  {
    assert |s| == |Under(name, s)| == |t|;
    forall i | 0 <= i < |s| ensures s[i] == t[i] {
      assert Under(name, s)[i] == Under(name, t)[i];
      assert s[i].path == ([name] + s[i].path)[1..] && t[i].path == ([name] + t[i].path)[1..];
    }
  }

  /** The first child's block ends where a path of length one comes next, or nothing. */
  lemma FirstBlock(cs: seq<Child>)
    requires cs != []
    ensures var n := |Signature(cs[0].sub)|;
            && n <= |ChildLines(cs)| && (n < |ChildLines(cs)| ==> |ChildLines(cs)[n].path| == 1)
            && forall i | 0 < i < n :: |ChildLines(cs)[i].path| > 1
  {
    var n := |Signature(cs[0].sub)|;
    assert |Block(cs[0])| == n;
    forall i | 0 < i < n ensures |Block(cs[0])[i].path| > 1 { PathsBelow(cs[0].sub, i); }
    if cs[1..] != [] { FirstLine(cs[1..]); }
  }

  lemma SameFirstBlock(cs: seq<Child>, ds: seq<Child>)
    requires cs != [] && ds != [] && ChildLines(cs) == ChildLines(ds)
    ensures |Signature(cs[0].sub)| == |Signature(ds[0].sub)|
  {
    FirstBlock(cs);
    FirstBlock(ds);
  }
}
