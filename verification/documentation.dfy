/** The documentation page's section navigator: a current section id moved
    back and forth over a fixed list of six sections by the Previous and Next
    buttons. */
module Documentation {

  const Sections: seq<string> := ["introduction", "methodology", "results", "discussion", "conclusion", "references"]

  /** The section shown when the page opens. */
  const Initial := "introduction"

  datatype Direction = Prev | Next

  /** No id occurs twice. */
  predicate Distinct(ids: seq<string>) {
    forall i, j | 0 <= i < j < |ids| :: ids[i] != ids[j]
  }

  /** `findIndex` on ids: the first position holding `id`, or -1. */
  function IndexOf(ids: seq<string>, id: string): (r: int)
    ensures -1 <= r < |ids|
    ensures r == -1 <==> id !in ids
    ensures r >= 0 ==> ids[r] == id
    ensures forall j | 0 <= j < r :: ids[j] != id
  {
    if |ids| == 0 then -1
    else if ids[0] == id then 0
    else
      var k := IndexOf(ids[1..], id);
      if k == -1 then -1 else k + 1
  }

  /** In a list without repeats, an id's index is its position. */
  lemma IndexOfDistinct(ids: seq<string>, i: int)
    requires Distinct(ids) && 0 <= i < |ids|
    ensures IndexOf(ids, ids[i]) == i
  {
  }

  lemma SectionsDistinct()
    ensures Distinct(Sections)
  {
  }

  /** `navigateSection`: one step back or forward from the current section's
      index, staying put at either end. */
  function Navigate(current: string, dir: Direction): (next: string)
    ensures next == current || next in Sections
  {
    var i := IndexOf(Sections, current);
    match dir
    case Prev => if i > 0 then Sections[i - 1] else current
    case Next => if i < |Sections| - 1 then Sections[i + 1] else current
  }

  /** Previous from the section at position i goes to position i-1, and is a
      no-op on the first section. */
  lemma PrevStep(i: int)
    requires 0 <= i < |Sections|
    ensures Navigate(Sections[i], Prev) == if i > 0 then Sections[i - 1] else Sections[i]
  {
    SectionsDistinct();
    IndexOfDistinct(Sections, i);
  }

  /** Next from the section at position i goes to position i+1, and is a
      no-op on the last section. */
  lemma NextStep(i: int)
    requires 0 <= i < |Sections|
    ensures Navigate(Sections[i], Next) == if i < |Sections| - 1 then Sections[i + 1] else Sections[i]
  {
    SectionsDistinct();
    IndexOfDistinct(Sections, i);
  }

  /** Next then Previous returns to any section but the last; Previous then
      Next returns to any section but the first. */
  lemma RoundTrip(i: int)
    requires 0 <= i < |Sections|
    ensures i < |Sections| - 1 ==> Navigate(Navigate(Sections[i], Next), Prev) == Sections[i]
    ensures i > 0 ==> Navigate(Navigate(Sections[i], Prev), Next) == Sections[i]
  {
    NextStep(i);
    PrevStep(i);
    if i < |Sections| - 1 {
      PrevStep(i + 1);
    }
    if i > 0 {
      NextStep(i - 1);
    }
  }

  /** A current id outside the list: Previous does nothing and Next goes to
      the first section. */
  lemma Unlisted(current: string)
    requires current !in Sections
    ensures Navigate(current, Prev) == current
    ensures Navigate(current, Next) == Sections[0]
  {
  }

  /** The section reached by a sequence of button presses. */
  function Walk(current: string, dirs: seq<Direction>): string
    decreases |dirs|
  {
    if |dirs| == 0 then current else Walk(Navigate(current, dirs[0]), dirs[1..])
  }

  /** From a listed section, every sequence of presses stays on the list. */
  lemma {:induction false} WalkStaysListed(current: string, dirs: seq<Direction>)
    requires current in Sections
    ensures Walk(current, dirs) in Sections
    decreases |dirs|
  {
    if |dirs| > 0 {
      WalkStaysListed(Navigate(current, dirs[0]), dirs[1..]);
    }
  }

  /** In particular, from the page's opening section. */
  lemma WalkFromInitial(dirs: seq<Direction>)
    ensures Walk(Initial, dirs) in Sections
  {
    WalkStaysListed(Initial, dirs);
  }

  /** The Previous button's disabled condition. */
  predicate PrevDisabled(current: string) {
    IndexOf(Sections, current) == 0
  }

  /** The Next button's disabled condition. */
  predicate NextDisabled(current: string) {
    IndexOf(Sections, current) == |Sections| - 1
  }

  /** On a listed section, a button is disabled exactly when pressing it
      would do nothing. */
  lemma DisabledIffNoOp(current: string)
    requires current in Sections
    ensures PrevDisabled(current) <==> Navigate(current, Prev) == current
    ensures NextDisabled(current) <==> Navigate(current, Next) == current
  {
    var i := IndexOf(Sections, current);
    SectionsDistinct();
    if i > 0 {
      assert Sections[i - 1] != Sections[i];
    }
    if i < |Sections| - 1 {
      assert Sections[i + 1] != Sections[i];
    }
  }

  /** Previous is disabled only on the first section and Next only on the
      last. */
  lemma DisabledAtEnds(i: int)
    requires 0 <= i < |Sections|
    ensures PrevDisabled(Sections[i]) <==> i == 0
    ensures NextDisabled(Sections[i]) <==> i == |Sections| - 1
  {
    SectionsDistinct();
    IndexOfDistinct(Sections, i);
  }
}
