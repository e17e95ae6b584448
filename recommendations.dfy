/**
 * `FormattedRecommendations.js`: a care recommendation arrives as one text in which
 * `**` separates sections; each section may begin with a title ended by `:`. The
 * sections are revealed one by one by an interval callback.
 */
module Recommendations {
  import opened Wrappers
  import opened JsString
  import opened JsArray

  const SectionMarker := "**"

  predicate NonBlank(piece: string) {
    Trim(piece) != ""
  }

  /**
   * `recommendation.split('**').filter(item => item.trim() !== '')`: the pieces
   * between markers whose trim is non-empty, in their original order.
   */
  function Sections(recommendation: string): (r: seq<string>)
    ensures forall k :: 0 <= k < |r| ==> NonBlank(r[k]) && !Includes(r[k], SectionMarker)
    ensures forall x :: x in r <==> x in Split(recommendation, SectionMarker) && NonBlank(x)
  {
    Filter(Split(recommendation, SectionMarker), NonBlank)
  }

  /** The pieces that are dropped are exactly the blank ones, whitespace included. */
  lemma DroppedPiecesAreBlank(recommendation: string)
    ensures var pieces := Split(recommendation, SectionMarker);
      |Sections(recommendation)| + |Filter(pieces, IsBlank)| == |pieces|
  {
    var pieces := Split(recommendation, SectionMarker);
    forall x | x in pieces
      ensures NonBlank(x) <==> !IsBlank(x)
    {
      TrimEmptyIffBlank(x);
    }
    FilterComplement(pieces, NonBlank, IsBlank);
  }

  /** The title and content a section is split into: `[title, content] = rec.split(':')`. */
  datatype Section = Section(title: string, content: string)

  function ParseSection(rec: string): (p: Section)
    ensures !(':' in rec) ==> p.title == "" && p.content == rec
    ensures ':' in rec ==>
      var i := |p.title|;
      // the title is everything before the first colon
      i < |rec| && rec[i] == ':' && p.title == rec[..i] && !(':' in p.title)
    ensures ':' in rec ==>
      var i := |p.title|;
      var j := i + 1 + |p.content|;
      // the content runs from after it up to the second colon or the end
      j <= |rec| && p.content == rec[i + 1..j] && !(':' in p.content) && (j == |rec| || rec[j] == ':')
  {
    IncludesChar(rec, ':');
    if Includes(rec, ":") then
      ColonTitle(rec);
      ColonContent(rec);
      Section(Split(rec, ":")[0], Split(rec, ":")[1])
    else
      SplitHead(rec, ":");
      Section("", rec)
  }

  /** With a colon, the first piece is the text before the first colon. */
  lemma ColonTitle(rec: string)
    requires Includes(rec, ":")
    ensures |Split(rec, ":")| >= 2
    ensures var t := Split(rec, ":")[0];
      |t| == IndexOf(rec, ":").value && |t| < |rec| && rec[|t|] == ':' && t == rec[..|t|] &&
      !(':' in t)
  {
    var i := IndexOf(rec, ":").value;
    SplitHead(rec, ":");
    PrefixBeforeFirst(rec, ":", i);
    IncludesChar(rec[..i], ':');
    assert rec[i..i + 1] == ":";
  }

  /** With a colon, the second piece runs from after it to the next colon or the end. */
  lemma ColonContent(rec: string)
    requires Includes(rec, ":")
    ensures |Split(rec, ":")| >= 2
    ensures var i := |Split(rec, ":")[0]|; var c := Split(rec, ":")[1];
      var j := i + 1 + |c|;
      j <= |rec| && c == rec[i + 1..j] && !(':' in c) && (j == |rec| || rec[j] == ':')
  {
    ColonTitle(rec);
    var i := |Split(rec, ":")[0]|;
    var c := Split(rec, ":")[1];
    SplitSecondPieceAt(rec, ":", i, c);
    IncludesChar(c, ':');
    var j := i + 1 + |c|;
    if j < |rec| {
      assert rec[j..j + 1] == ":";
    }
  }

  /** A section rendered: its optional heading and its body text. */
  datatype Rendered = Rendered(heading: Option<string>, body: string)

  /**
   * The heading shown for the section at `index`: none when the title is empty,
   * otherwise the trimmed title, numbered from the second section on.
   */
  function Heading(index: nat, title: string): (h: Option<string>)
    ensures h.None? <==> title == ""
    ensures h.Some? && index == 0 ==> h.value == Trim(title)
    ensures h.Some? && index > 0 ==> h.value == DecimalString(index) + ". " + Trim(title)
  {
    if title == "" then None
    else if index > 0 then Some(DecimalString(index) + ". " + Trim(title))
    else Some(Trim(title))
  }

  /** The body: the trimmed content, or the whole section trimmed when the content is empty. */
  function Body(rec: string, content: string): (b: string)
    ensures content != "" ==> b == Trim(content)
    ensures content == "" ==> b == Trim(rec)
  {
    if content != "" then Trim(content) else Trim(rec)
  }

  function RenderSection(index: nat, rec: string): Rendered {
    var p := ParseSection(rec);
    Rendered(Heading(index, p.title), Body(rec, p.content))
  }

  /**
   * A section gets a heading exactly when it contains a colon that is not its first
   * character; without a colon its body is the whole section, trimmed.
   */
  lemma RenderedHeading(index: nat, rec: string)
    ensures RenderSection(index, rec).heading.Some? <==> ':' in rec && rec[0] != ':'
    ensures !(':' in rec) ==> RenderSection(index, rec) == Rendered(None, Trim(rec))
  {
    var p := ParseSection(rec);
    if ':' in rec && p.title != "" {
      assert rec[0] == p.title[0];
    }
  }

  /** A numbered heading reads back, through `parseInt`, as its section's index. */
  lemma HeadingNumber(index: nat, title: string)
    requires index > 0 && title != ""
    ensures ParseInt(Heading(index, title).value) == Some(index)
  {
    NumberedReadsBack(index, Trim(title));
  }

  lemma NumberedReadsBack(n: nat, text: string)
    ensures ParseInt(DecimalString(n) + ". " + text) == Some(n)
  {
    var rest := ". " + text;
    assert rest[0] == '.';
    ParseNonNegative(n, rest);
    assert DecimalString(n) + ". " + text == DecimalString(n) + rest;
  }

  /** `recommendations.slice(0, visibleSections).map(...)`. */
  function Displayed(recommendation: string, visible: nat): (r: seq<Rendered>)
    ensures |r| == Min(visible, |Sections(recommendation)|)
    ensures forall k :: 0 <= k < |r| ==> r[k] == RenderSection(k, Sections(recommendation)[k])
  {
    var shown := Slice(Sections(recommendation), 0, visible);
    seq(|shown|, k requires 0 <= k < |shown| => RenderSection(k, shown[k]))
  }

  /**
   * The component's state: the recommendation prop, the `visibleSections` counter and
   * whether the interval that steps it is still running.
   */
  class RecommendationReveal {
    var recommendation: string
    var visibleSections: nat
    var intervalActive: bool

    function Count(): nat
      reads this
    {
      |Sections(recommendation)|
    }

    /** The counter never runs past the number of sections. */
    predicate Bounded()
      reads this
    {
      visibleSections <= Count()
    }

    /** Mounting: nothing visible yet, and the interval started. */
    constructor (recommendation: string)
      ensures this.recommendation == recommendation
      ensures visibleSections == 0 && intervalActive && Bounded()
    {
      this.recommendation := recommendation;
      visibleSections := 0;
      intervalActive := true;
    }

    /**
     * One interval callback: one more section while any is hidden; otherwise the
     * interval is cleared and the counter stays.
     */
    method Tick()
      requires intervalActive
      modifies this`visibleSections, this`intervalActive
      ensures old(visibleSections) < Count() ==> visibleSections == old(visibleSections) + 1 && intervalActive
      ensures old(visibleSections) >= Count() ==> visibleSections == old(visibleSections) && !intervalActive
      ensures old(Bounded()) ==> Bounded()
    {
      if visibleSections < Count() {
        visibleSections := visibleSections + 1;
      } else {
        intervalActive := false;
      }
    }

    /**
     * A new recommendation prop. The counter is kept; the effect, keyed on the number
     * of sections, clears and restarts the interval only when that number changed.
     */
    method ChangeRecommendation(newRecommendation: string)
      modifies this`recommendation, this`intervalActive
      ensures recommendation == newRecommendation && visibleSections == old(visibleSections)
      ensures |Sections(newRecommendation)| != old(Count()) ==> intervalActive
      ensures |Sections(newRecommendation)| == old(Count()) ==> intervalActive == old(intervalActive)
      ensures |Sections(newRecommendation)| == old(Count()) ==> (old(Bounded()) ==> Bounded())
    {
      var restart := |Sections(newRecommendation)| != Count();
      recommendation := newRecommendation;
      if restart {
        intervalActive := true;
      }
    }

    function View(): (v: seq<Rendered>)
      reads this
      ensures Bounded() ==> |v| == visibleSections
    {
      Displayed(recommendation, visibleSections)
    }
  }

  /**
   * Mounting and letting the interval run until it stops reveals every section,
   * in order, and the interval clears itself.
   */
  method RevealAll(recommendation: string) returns (shown: seq<Rendered>, stopped: bool)
    ensures shown == Displayed(recommendation, |Sections(recommendation)|)
    ensures |shown| == |Sections(recommendation)|
    ensures stopped
  {
    var widget := new RecommendationReveal(recommendation);
    while widget.intervalActive
      invariant widget.recommendation == recommendation && widget.Bounded()
      invariant !widget.intervalActive ==> widget.visibleSections == widget.Count()
      decreases widget.Count() - widget.visibleSections + (if widget.intervalActive then 1 else 0)
    {
      widget.Tick();
    }
    shown := widget.View();
    stopped := !widget.intervalActive;
  }
}
