/** The reference data of a site (programmes and fee schedule) and the
    renderers that turn it into the programme grid, the programme select of
    the lead form and the fee modal. Each renderer is the script's
    `list.map(item => template).join('')`: one node per item, in input
    order, nothing sorted, merged or dropped. The sites differ only in a few
    labels, passed in as parameters. */
module Catalog {

  import opened Wrappers
  import opened Html

  datatype Course = Course(name: string, description: string, duration: string, courseType: string)

  datatype Breakdown = Breakdown(tuition: string, hostel: string, other: string)

  datatype Fee = Fee(course: string, range: string, breakdown: Option<Breakdown>)

  /** The per-site wording of a fee card: the class of the amount line and the
      three breakdown captions. */
  datatype FeeLabels = FeeLabels(amountClass: string, tuition: string, hostel: string, other: string)

  /** What a load of `courses.json` or `fees.json` came to: a body that parsed
      (whatever the HTTP status), or an exception thrown by `fetch`, by
      `json()` or while rendering. */
  datatype Load<T> = Fetched(items: seq<T>) | Failed

  // ---------------------------------------------------------------- courses

  /** One `program-card` of the programme grid. */
  function CourseCard(c: Course): Node
  {
    Classed("div", "program-card", [
      Plain("h3", [Text(c.name)]),
      Plain("p", [Text(c.description)]),
      Classed("div", "program-meta", [Plain("span", [Text(c.duration)]), Plain("span", [Text(c.courseType)])])
    ])
  }

  /** The content `displayCourses` gives the grid container. */
  function CourseCards(cs: seq<Course>): (r: seq<Node>)
    ensures |r| == |cs|
    ensures forall i :: 0 <= i < |cs| ==> r[i] == CourseCard(cs[i])
  {
    if cs == [] then [] else [CourseCard(cs[0])] + CourseCards(cs[1..])
  }

  /** What a visitor reads on a card: name, description, duration and type, in that order. */
  function CourseFacts(c: Course): seq<string>
  {
    [c.name, c.description, c.duration, c.courseType]
  }

  function AllCourseFacts(cs: seq<Course>): seq<string>
  {
    if cs == [] then [] else CourseFacts(cs[0]) + AllCourseFacts(cs[1..])
  }

  lemma CourseCardShows(c: Course)
    ensures Texts(CourseCard(c)) == CourseFacts(c)
  {
    TextsOfLeaf("h3", [], c.name);
    TextsOfLeaf("p", [], c.description);
    TextsOfLeaf("span", [], c.duration);
    TextsOfLeaf("span", [], c.courseType);
    TextsOfPair(Plain("span", [Text(c.duration)]), Plain("span", [Text(c.courseType)]));
    TextsOfTriple(Plain("h3", [Text(c.name)]), Plain("p", [Text(c.description)]),
      Classed("div", "program-meta", [Plain("span", [Text(c.duration)]), Plain("span", [Text(c.courseType)])]));
  }

  /** The grid shows the facts of every course, course after course, in input order. */
  lemma {:induction false} CourseCardsShow(cs: seq<Course>)
    ensures TextsOf(CourseCards(cs)) == AllCourseFacts(cs)
  {
    if cs != [] {
      var r := CourseCards(cs);
      assert r == [CourseCard(cs[0])] + CourseCards(cs[1..]);
      TextsOfAppend([CourseCard(cs[0])], CourseCards(cs[1..]));
      TextsOfSingleton(CourseCard(cs[0]));
      CourseCardShows(cs[0]);
      CourseCardsShow(cs[1..]);
    }
  }

  // --------------------------------------------------------- course select

  function SelectOption(value: string, caption: string): Node
  {
    Element("option", [Attr("value", value)], [Text(caption)])
  }

  /** The value an `option` element submits: its `value` attribute. */
  function ValueOf(n: Node): Option<string>
  {
    if n.Element? && n.tag == "option" then Lookup(n.attrs, "value") else None
  }

  function CourseOptions(cs: seq<Course>): (r: seq<Node>)
    ensures |r| == |cs|
    ensures forall i :: 0 <= i < |cs| ==> r[i] == SelectOption(cs[i].name, cs[i].name)
  {
    if cs == [] then [] else [SelectOption(cs[0].name, cs[0].name)] + CourseOptions(cs[1..])
  }

  /** The content `populateCourseSelect` gives the programme select: the
      placeholder option (empty value) and then the courses' options. */
  function CourseSelect(placeholder: string, cs: seq<Course>): seq<Node>
  {
    [SelectOption("", placeholder)] + CourseOptions(cs)
  }

  /** Exactly one option per course after the placeholder, in input order,
      offering and submitting the course's name. */
  lemma CourseSelectOffers(placeholder: string, cs: seq<Course>)
    ensures |CourseSelect(placeholder, cs)| == |cs| + 1
    ensures ValueOf(CourseSelect(placeholder, cs)[0]) == Some("")
    ensures Texts(CourseSelect(placeholder, cs)[0]) == [placeholder]
    ensures forall i :: 0 <= i < |cs| ==>
              ValueOf(CourseSelect(placeholder, cs)[i + 1]) == Some(cs[i].name) &&
              Texts(CourseSelect(placeholder, cs)[i + 1]) == [cs[i].name]
  {
    var r := CourseSelect(placeholder, cs);
    forall i | 0 <= i < |cs|
      ensures ValueOf(r[i + 1]) == Some(cs[i].name) && Texts(r[i + 1]) == [cs[i].name]
    {
      assert r[i + 1] == SelectOption(cs[i].name, cs[i].name);
      TextsOfLeaf("option", [Attr("value", cs[i].name)], cs[i].name);
    }
    TextsOfLeaf("option", [Attr("value", "")], placeholder);
  }

  // ------------------------------------------------------------------ fees

  function BreakdownRow(caption: string, amount: string): Node
  {
    Plain("div", [Plain("span", [Text(caption)]), Plain("span", [Text(amount)])])
  }

  /** The `fee-breakdown` block of a fee card. */
  function BreakdownBlock(l: FeeLabels, b: Breakdown): Node
  {
    Classed("div", "fee-breakdown", [
      BreakdownRow(l.tuition, b.tuition),
      BreakdownRow(l.hostel, b.hostel),
      BreakdownRow(l.other, b.other)
    ])
  }

  /** One `fee-item` of the fee modal; the breakdown block is rendered only
      when the entry has a breakdown. */
  function FeeItem(l: FeeLabels, f: Fee): Node
  {
    Classed("div", "fee-item",
      [Plain("h4", [Text(f.course)]), Classed("div", l.amountClass, [Text(f.range)])] +
      (match f.breakdown
       case Some(b) => [BreakdownBlock(l, b)]
       case None => []))
  }

  /** The content `displayFeeData` gives the fee container. */
  function FeeItems(l: FeeLabels, fs: seq<Fee>): (r: seq<Node>)
    ensures |r| == |fs|
    ensures forall i :: 0 <= i < |fs| ==> r[i] == FeeItem(l, fs[i])
  {
    if fs == [] then [] else [FeeItem(l, fs[0])] + FeeItems(l, fs[1..])
  }

  /** A fee card holds a breakdown block if and only if the entry has a breakdown. */
  lemma FeeItemBreakdownExactly(l: FeeLabels, f: Fee)
    requires l.amountClass != "fee-breakdown"
    ensures HasChildOfClass(FeeItem(l, f), "fee-breakdown") <==> f.breakdown.Some?
  {
    var n := FeeItem(l, f);
    if f.breakdown.Some? {
      assert ClassOf(n.children[2]) == Some("fee-breakdown");
    } else {
      assert |n.children| == 2;
      forall i | 0 <= i < |n.children|
        ensures ClassOf(n.children[i]) != Some("fee-breakdown")
      {
        assert i == 0 || i == 1;
      }
    }
  }

  /** What a visitor reads on a fee card: course, range and, when there is a
      breakdown, each caption followed by its amount. */
  function FeeFacts(l: FeeLabels, f: Fee): seq<string>
  {
    [f.course, f.range] +
    match f.breakdown
    case Some(b) => [l.tuition, b.tuition, l.hostel, b.hostel, l.other, b.other]
    case None => []
  }

  lemma BreakdownRowShows(caption: string, amount: string)
    ensures Texts(BreakdownRow(caption, amount)) == [caption, amount]
  {
    TextsOfLeaf("span", [], caption);
    TextsOfLeaf("span", [], amount);
    TextsOfPair(Plain("span", [Text(caption)]), Plain("span", [Text(amount)]));
  }

  lemma FeeItemShows(l: FeeLabels, f: Fee)
    ensures Texts(FeeItem(l, f)) == FeeFacts(l, f)
  {
    var head := [Plain("h4", [Text(f.course)]), Classed("div", l.amountClass, [Text(f.range)])];
    TextsOfLeaf("h4", [], f.course);
    TextsOfLeaf("div", [Attr("class", l.amountClass)], f.range);
    TextsOfPair(head[0], head[1]);
    match f.breakdown
    case None =>
      assert head + [] == head;
    case Some(b) =>
      var block := BreakdownBlock(l, b);
      TextsOfAppend(head, [block]);
      TextsOfSingleton(block);
      BreakdownRowShows(l.tuition, b.tuition);
      BreakdownRowShows(l.hostel, b.hostel);
      BreakdownRowShows(l.other, b.other);
      TextsOfTriple(BreakdownRow(l.tuition, b.tuition), BreakdownRow(l.hostel, b.hostel), BreakdownRow(l.other, b.other));
  }

  function AllFeeFacts(l: FeeLabels, fs: seq<Fee>): seq<string>
  {
    if fs == [] then [] else FeeFacts(l, fs[0]) + AllFeeFacts(l, fs[1..])
  }

  /** The fee modal shows the facts of every entry, entry after entry, in input order. */
  lemma {:induction false} FeeItemsShow(l: FeeLabels, fs: seq<Fee>)
    ensures TextsOf(FeeItems(l, fs)) == AllFeeFacts(l, fs)
  {
    if fs != [] {
      assert FeeItems(l, fs) == [FeeItem(l, fs[0])] + FeeItems(l, fs[1..]);
      TextsOfAppend([FeeItem(l, fs[0])], FeeItems(l, fs[1..]));
      TextsOfSingleton(FeeItem(l, fs[0]));
      FeeItemShows(l, fs[0]);
      FeeItemsShow(l, fs[1..]);
    }
  }
}
