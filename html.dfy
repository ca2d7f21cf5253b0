/** The markup the page scripts assign to `innerHTML`, as a tree.

    Every template literal of the scripts is a fixed skeleton of tags with
    interpolated values; here a tag is an `Element`, an interpolated value or
    literal prose is a `Text`, and whitespace that only separates tags is
    dropped. The observers below read a tree the way a visitor reads the page:
    its text runs in document order, the values of an attribute, the
    emphasised runs. */
module Html {

  import opened Wrappers

  datatype Attr = Attr(name: string, value: string)

  datatype Node =
    | Text(text: string)
    | Element(tag: string, attrs: seq<Attr>, children: seq<Node>)

  /** An element carrying a single `class` attribute. */
  function Classed(tag: string, cls: string, children: seq<Node>): (n: Node)
    ensures n.Element? && n.tag == tag && ClassOf(n) == Some(cls) && n.children == children
  {
    Element(tag, [Attr("class", cls)], children)
  }

  /** An element without attributes. */
  function Plain(tag: string, children: seq<Node>): (n: Node)
    ensures n.Element? && n.tag == tag && ClassOf(n) == None && n.children == children
  {
    Element(tag, [], children)
  }

  /** `<strong>s</strong>`. */
  function Strong(s: string): Node
  {
    Plain("strong", [Text(s)])
  }

  /** `<br>`. */
  const LineBreak: Node := Plain("br", [])

  /** The value of the first attribute called `name`, as the DOM's getAttribute. */
  function Lookup(attrs: seq<Attr>, name: string): (r: Option<string>)
    ensures r.Some? <==> exists i :: 0 <= i < |attrs| && attrs[i].name == name
    ensures r.Some? ==> exists i :: 0 <= i < |attrs| && attrs[i] == Attr(name, r.value) &&
                                    forall j :: 0 <= j < i ==> attrs[j].name != name
  {
    if attrs == [] then None
    else if attrs[0].name == name then Some(attrs[0].value)
    else
      var r := Lookup(attrs[1..], name);
      if r.Some? then
        var i :| 0 <= i < |attrs[1..]| && attrs[1..][i] == Attr(name, r.value) &&
                 forall j :: 0 <= j < i ==> attrs[1..][j].name != name;
        assert attrs[i + 1] == Attr(name, r.value);
        assert forall j :: 0 <= j < i + 1 ==> attrs[j].name != name by {
          forall j | 0 <= j < i + 1 ensures attrs[j].name != name {
            if j > 0 { assert attrs[j] == attrs[1..][j - 1]; }
          }
        }
        r
      else r
  }

  function ClassOf(n: Node): Option<string>
  {
    if n.Element? then Lookup(n.attrs, "class") else None
  }

  /** Whether some direct child of `n` is an element of class `cls`. */
  predicate HasChildOfClass(n: Node, cls: string)
  {
    n.Element? && exists i :: 0 <= i < |n.children| && ClassOf(n.children[i]) == Some(cls)
  }

  /** The text runs of a tree in document order (what `textContent` concatenates). */
  function Texts(n: Node): seq<string>
  {
    match n
    case Text(s) => [s]
    case Element(_, _, cs) => TextsOf(cs)
  }

  function TextsOf(ns: seq<Node>): seq<string>
  {
    if ns == [] then [] else Texts(ns[0]) + TextsOf(ns[1..])
  }

  lemma {:induction false} TextsOfAppend(a: seq<Node>, b: seq<Node>)
    ensures TextsOf(a + b) == TextsOf(a) + TextsOf(b)
  {
    if a == [] {
      assert a + b == b;
    } else {
      assert (a + b)[0] == a[0];
      assert (a + b)[1..] == a[1..] + b;
      TextsOfAppend(a[1..], b);
    }
  }

  lemma TextsOfSingleton(a: Node)
    ensures TextsOf([a]) == Texts(a)
  {
    assert [a][1..] == [];
  }

  lemma TextsOfPair(a: Node, b: Node)
    ensures TextsOf([a, b]) == Texts(a) + Texts(b)
  {
    assert [a, b][1..] == [b];
    TextsOfSingleton(b);
  }

  lemma TextsOfTriple(a: Node, b: Node, c: Node)
    ensures TextsOf([a, b, c]) == Texts(a) + Texts(b) + Texts(c)
  {
    assert [a, b, c][1..] == [b, c];
    TextsOfPair(b, c);
  }

  /** An element whose only child is a text reads as that text. */
  lemma TextsOfLeaf(tag: string, attrs: seq<Attr>, s: string)
    ensures Texts(Element(tag, attrs, [Text(s)])) == [s]
  {
    TextsOfSingleton(Text(s));
  }

  /** The text of the `strong` elements among `ns`, in order. */
  function Emphasised(ns: seq<Node>): seq<string>
  {
    if ns == [] then []
    else (if ns[0].Element? && ns[0].tag == "strong" then Texts(ns[0]) else []) + Emphasised(ns[1..])
  }

  lemma EmphasisedCons(n: Node, ns: seq<Node>)
    ensures Emphasised([n] + ns) == (if n.Element? && n.tag == "strong" then Texts(n) else []) + Emphasised(ns)
  {
    assert ([n] + ns)[1..] == ns;
  }

  lemma {:induction false} EmphasisedAppend(a: seq<Node>, b: seq<Node>)
    ensures Emphasised(a + b) == Emphasised(a) + Emphasised(b)
  {
    if a == [] {
      assert a + b == b;
    } else {
      assert (a + b)[0] == a[0];
      assert (a + b)[1..] == a[1..] + b;
      EmphasisedAppend(a[1..], b);
    }
  }

  /** A text, one `strong` run, a text and two line breaks emphasise that run only. */
  lemma EmphasisedStrongThenTwoBreaks(before: string, s: string, after: string)
    ensures Emphasised([Text(before), Strong(s), Text(after), LineBreak, LineBreak]) == [s]
  {
    TextsOfLeaf("strong", [], s);
    EmphasisedCons(Text(before), [Strong(s), Text(after), LineBreak, LineBreak]);
    EmphasisedCons(Strong(s), [Text(after), LineBreak, LineBreak]);
    EmphasisedCons(Text(after), [LineBreak, LineBreak]);
    EmphasisedCons(LineBreak, [LineBreak]);
    EmphasisedCons(LineBreak, []);
  }

  /** A text, one `strong` run, a text and a line break emphasise that run only. */
  lemma EmphasisedStrongThenBreak(before: string, s: string, after: string)
    ensures Emphasised([Text(before), Strong(s), Text(after), LineBreak]) == [s]
  {
    TextsOfLeaf("strong", [], s);
    EmphasisedCons(Text(before), [Strong(s), Text(after), LineBreak]);
    EmphasisedCons(Strong(s), [Text(after), LineBreak]);
    EmphasisedCons(Text(after), [LineBreak]);
    EmphasisedCons(LineBreak, []);
  }

  /** A text, one `strong` run and a text emphasise that run only. */
  lemma EmphasisedStrongInText(before: string, s: string, after: string)
    ensures Emphasised([Text(before), Strong(s), Text(after)]) == [s]
  {
    TextsOfLeaf("strong", [], s);
    EmphasisedCons(Text(before), [Strong(s), Text(after)]);
    EmphasisedCons(Strong(s), [Text(after)]);
    EmphasisedCons(Text(after), []);
  }

  /** Whether `t` occurs in `s` as a contiguous piece. */
  predicate Contains(s: string, t: string)
  {
    exists i :: 0 <= i <= |s| && t <= s[i..]
  }
}
