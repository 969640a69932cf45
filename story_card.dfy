/**
 * app/components/AgentStoryCard.tsx: which view the card shows for a status, which
 * stored analysis it displays, how the selection follows new results, and which
 * sections of an analysis appear.
 */
module StoryCard {
  import opened Wrappers
  import opened Text
  import opened Json
  import opened Utils
  import StoryWorker

  /** The `status` prop. */
  datatype CardStatus = Idle | Pending | Processing | Completed | Failed

  /** One stored analysis (`AgentStoryResult`) as the card reads it. */
  datatype Story = Story(
    id: Option<int>,
    createdAt: Option<string>,
    errorMessage: Option<string>,
    matriksStory: Option<seq<Json>>,
    swotAnalysis: Option<Json>,
    checklistKatalis: Option<seq<Json>>,
    strategiTrading: Option<Json>,
    keystatSignal: Option<string>,
    kesimpulan: Option<string>,
    sources: Option<seq<StoryWorker.Citation>>)

  /** A numbered entry of the references list. */
  datatype Reference = Reference(number: nat, title: string, uri: string)

  /** The sections of the card, in page order. */
  datatype Section =
    | StoryMatrix(rows: seq<Json>)
    | Swot(analysis: Json)
    | CatalystChecklist(items: seq<Json>)
    | TradingStrategy(plan: Json)
    | KeyStatSignal(parts: seq<Part>)
    | Conclusion(parts: seq<Part>)
    | References(entries: seq<Reference>)

  /** What the header shows at its right end. */
  datatype Header = VersionDropdown(options: nat) | DateBadge(createdAt: string) | Plain

  datatype View =
    | Spinner(message: string)
    | ErrorBox(message: string, retryButton: bool)
    | Nothing
    | Card(header: Header, sections: seq<Section>)
    | Crash   // `data` is undefined and `data.matriks_story` throws

  /** `stories.find(s => s.id === selectedId) || stories[0]`: a missing id never matches. */
  function Displayed(stories: seq<Story>, selectedId: Option<int>): (d: Option<Story>)
    ensures d.None? <==> stories == []
    ensures d.Some? ==> d.value in stories
  {
    if stories == [] then None
    else match FindById(stories, selectedId)
      case Some(k) => Some(stories[k])
      case None => Some(stories[0])
  }

  function FindById(stories: seq<Story>, selectedId: Option<int>): (r: Option<nat>)
    ensures r.Some? ==>
      && r.value < |stories|
      && selectedId.Some?
      && stories[r.value].id == selectedId
      && forall k :: 0 <= k < r.value ==> stories[k].id != selectedId
    ensures r.None? ==> selectedId.None? || forall k :: 0 <= k < |stories| ==> stories[k].id != selectedId
  {
    if stories == [] || selectedId.None? then None
    else if stories[0].id == selectedId then Some(0)
    else match FindById(stories[1..], selectedId)
      case None => None
      case Some(k) => Some(k + 1)
  }

  /**
   * The displayed analysis is the first one carrying the selected id, or the newest
   * (`stories[0]`) when the selection is empty or matches nothing.
   */
  lemma DisplayedIsSelectedOrNewest(stories: seq<Story>, selectedId: Option<int>)
    requires stories != []
    ensures var d := Displayed(stories, selectedId).value;
      && ((exists k :: 0 <= k < |stories| && selectedId.Some? && stories[k].id == selectedId) ==>
            d.id == selectedId
            && exists k :: 0 <= k < |stories| && stories[k] == d && forall j :: 0 <= j < k ==> stories[j].id != selectedId)
      && (selectedId.None? || (forall k :: 0 <= k < |stories| ==> stories[k].id != selectedId) ==> d == stories[0])
  {
    var r := FindById(stories, selectedId);
    if r.Some? {
      assert stories[r.value] == Displayed(stories, selectedId).value;
    }
  }

  /** `stories[0].id || null`. */
  function NewestId(stories: seq<Story>): Option<int>
    requires stories != []
  {
    if stories[0].id.Some? && stories[0].id.value != 0 then stories[0].id else None
  }

  /** `!selectedId`. */
  predicate Unselected(id: Option<int>) {
    id.None? || id.value == 0
  }

  /** Selecting `stories[0].id || null` always displays the newest analysis. */
  lemma NewestSelectionShowsNewest(stories: seq<Story>)
    requires stories != []
    ensures Displayed(stories, NewestId(stories)) == Some(stories[0])
  {
  }

  // ---------------------------------------------------------------------------
  // Sections

  function RefsFrom(sources: seq<StoryWorker.Citation>): (refs: seq<Reference>)
    ensures |refs| == |sources|
    ensures forall i :: 0 <= i < |sources| ==>
      refs[i] == Reference(i + 1, sources[i].title, sources[i].uri)
  {
    seq(|sources|, i requires 0 <= i < |sources| => Reference(i + 1, sources[i].title, sources[i].uri))
  }

  /** The position of a section kind on the page. */
  function Rank(s: Section): nat {
    match s
    case StoryMatrix(_) => 0
    case Swot(_) => 1
    case CatalystChecklist(_) => 2
    case TradingStrategy(_) => 3
    case KeyStatSignal(_) => 4
    case Conclusion(_) => 5
    case References(_) => 6
  }

  /** The guarded block at page position `k`; `None` where its guard fails. */
  function Slot(data: Story, k: nat): (slot: Option<Section>)
    requires k < 7
    ensures slot.Some? ==> Rank(slot.value) == k
  {
    if k == 0 then
      if data.matriksStory.Some? && |data.matriksStory.value| > 0 then Some(StoryMatrix(data.matriksStory.value)) else None
    else if k == 1 then
      if data.swotAnalysis.Some? && Truthy(data.swotAnalysis.value) then Some(Swot(data.swotAnalysis.value)) else None
    else if k == 2 then
      if data.checklistKatalis.Some? && |data.checklistKatalis.value| > 0 then Some(CatalystChecklist(data.checklistKatalis.value)) else None
    else if k == 3 then
      if data.strategiTrading.Some? && Truthy(data.strategiTrading.value) then Some(TradingStrategy(data.strategiTrading.value)) else None
    else if k == 4 then
      if Present(data.keystatSignal) then Some(KeyStatSignal(RenderWithLinks(data.keystatSignal).value)) else None
    else if k == 5 then
      if Present(data.kesimpulan) then Some(Conclusion(RenderWithLinks(data.kesimpulan).value)) else None
    else
      if data.sources.Some? && |data.sources.value| > 0 then Some(References(RefsFrom(data.sources.value))) else None
  }

  /** The seven guarded blocks of the card body, in page order. */
  function Slots(data: Story): (slots: seq<Option<Section>>)
    ensures |slots| == 7
    ensures forall k :: 0 <= k < 7 ==> slots[k] == Slot(data, k)
  {
    seq(7, k requires 0 <= k < 7 => Slot(data, k))
  }

  /** The blocks whose guard holds, in order. */
  function Shown(slots: seq<Option<Section>>): seq<Section> {
    if slots == [] then []
    else (if slots[0].Some? then [slots[0].value] else []) + Shown(slots[1..])
  }

  /** The sections shown for an analysis. */
  function Sections(data: Story): seq<Section> {
    Shown(Slots(data))
  }

  lemma {:induction false} ShownMembership(slots: seq<Option<Section>>, s: Section)
    ensures s in Shown(slots) <==> Some(s) in slots
  {
    if slots != [] {
      ShownMembership(slots[1..], s);
      assert slots == [slots[0]] + slots[1..];
    }
  }

  lemma {:induction false} ShownOrdered(slots: seq<Option<Section>>, base: int)
    requires forall k :: 0 <= k < |slots| && slots[k].Some? ==> Rank(slots[k].value) == base + k
    ensures forall i :: 0 <= i < |Shown(slots)| ==> base <= Rank(Shown(slots)[i]) < base + |slots|
    ensures forall i, j :: 0 <= i < j < |Shown(slots)| ==> Rank(Shown(slots)[i]) < Rank(Shown(slots)[j])
  {
    if slots != [] {
      ShownOrdered(slots[1..], base + 1);
    }
  }

  /** Some shown section is of the kind at page position `k`. */
  ghost predicate HasKind(ss: seq<Section>, k: nat) {
    exists s :: s in ss && Rank(s) == k
  }

  /**
   * Each section appears at most once and in page order, and it appears exactly when its
   * field is present and non-empty (truthy, for the two objects); the references are
   * the stored sources numbered from 1 in their order.
   */
  lemma SectionsShownIff(data: Story)
    ensures var ss := Sections(data);
      && (forall i, j :: 0 <= i < j < |ss| ==> Rank(ss[i]) < Rank(ss[j]))
      && (HasKind(ss, 0) <==> data.matriksStory.Some? && |data.matriksStory.value| > 0)
      && (HasKind(ss, 1) <==> data.swotAnalysis.Some? && Truthy(data.swotAnalysis.value))
      && (HasKind(ss, 2) <==> data.checklistKatalis.Some? && |data.checklistKatalis.value| > 0)
      && (HasKind(ss, 3) <==> data.strategiTrading.Some? && Truthy(data.strategiTrading.value))
      && (HasKind(ss, 4) <==> Present(data.keystatSignal))
      && (HasKind(ss, 5) <==> Present(data.kesimpulan))
      && (HasKind(ss, 6) <==> data.sources.Some? && |data.sources.value| > 0)
      && (forall s :: s in ss && s.References? ==>
            && |s.entries| == |data.sources.value|
            && forall k :: 0 <= k < |s.entries| ==>
                 s.entries[k] == Reference(k + 1, data.sources.value[k].title, data.sources.value[k].uri))
  {
    var slots := Slots(data);
    ShownKinds(slots);
    assert slots[6] == Slot(data, 6);
    forall s | s in Sections(data) && s.References?
      ensures Some(s) == slots[6]
    {
      ShownMembership(slots, s);
      var k :| 0 <= k < 7 && slots[k] == Some(s);
      assert Rank(s) == 6;
    }
  }

  /** Of seven slots ranked by position, a kind is shown exactly when its slot is filled. */
  lemma ShownKinds(slots: seq<Option<Section>>)
    requires |slots| == 7
    requires forall k :: 0 <= k < 7 && slots[k].Some? ==> Rank(slots[k].value) == k
    ensures forall i, j :: 0 <= i < j < |Shown(slots)| ==> Rank(Shown(slots)[i]) < Rank(Shown(slots)[j])
    ensures forall k :: 0 <= k < 7 ==> (HasKind(Shown(slots), k) <==> slots[k].Some?)
  {
    var ss := Shown(slots);
    ShownOrdered(slots, 0);
    forall k | 0 <= k < 7
      ensures HasKind(ss, k) <==> slots[k].Some?
    {
      if slots[k].Some? {
        ShownMembership(slots, slots[k].value);
        assert slots[k].value in ss;
      }
      if HasKind(ss, k) {
        var s :| s in ss && Rank(s) == k;
        ShownMembership(slots, s);
      }
    }
  }

  /** The dropdown when there are several analyses; otherwise the date of the shown one, if any. */
  function HeaderOf(stories: seq<Story>, data: Option<Story>): Header {
    if |stories| > 1 then VersionDropdown(|stories|)
    else if data.Some? && Present(data.value.createdAt) then DateBadge(data.value.createdAt.value)
    else Plain
  }

  // ---------------------------------------------------------------------------
  // The view

  /** The view as the component is written. */
  function CardView(stories: seq<Story>, status: CardStatus, selectedId: Option<int>, canRetry: bool): (v: View)
    ensures v.Crash? <==> stories == [] && status == Completed
    ensures v.Card? ==> exists d :: d in stories && v.sections == Sections(d)
  {
    if status == Pending then Spinner("Memulai analisis...")
    else if status == Processing then Spinner("AI sedang menganalisis berita...")
    else if status == Failed then
      ErrorBox(if stories != [] && Present(stories[0].errorMessage) then stories[0].errorMessage.value
               else "Gagal menganalisis story", canRetry)
    else if stories == [] && status == Idle then Nothing
    else match Displayed(stories, selectedId)
      case None => assert stories == [] && status.Completed?; Crash
      case Some(d) => Card(HeaderOf(stories, Some(d)), Sections(d))
  }

  /** The view with the empty-result case hidden, as the idle case already is. */
  function CorrectedCardView(stories: seq<Story>, status: CardStatus, selectedId: Option<int>, canRetry: bool): (v: View)
    ensures !v.Crash?
  {
    if stories == [] && status == Completed then Nothing
    else CardView(stories, status, selectedId, canRetry)
  }

  /**
   * As written, `completed` with no stored analysis renders the card body with `data`
   * undefined, so reading `data.matriks_story` throws; every other input gets a view.
   */
  lemma CompletedWithoutStoriesCrashes(selectedId: Option<int>, canRetry: bool)
    ensures CardView([], Completed, selectedId, canRetry) == Crash
    ensures forall stories, status ::
      CardView(stories, status, selectedId, canRetry) == Crash ==> stories == [] && status == Completed
  {
  }

  /**
   * The status decides the view: a spinner while pending or processing, the error box
   * (the newest analysis's message, else a fixed text) on error, and otherwise the card
   * for the displayed analysis, or nothing when there is none.
   */
  lemma CorrectedViewByStatus(stories: seq<Story>, status: CardStatus, selectedId: Option<int>, canRetry: bool)
    ensures var v := CorrectedCardView(stories, status, selectedId, canRetry);
      && ((status == Pending || status == Processing) <==> v.Spinner?)
      && (status == Pending ==> v.message == "Memulai analisis...")
      && (status == Processing ==> v.message == "AI sedang menganalisis berita...")
      && (status == Failed <==> v.ErrorBox?)
      && (v.ErrorBox? ==>
            && v.retryButton == canRetry
            && (stories != [] && Present(stories[0].errorMessage) ==> v.message == stories[0].errorMessage.value)
            && (stories == [] || !Present(stories[0].errorMessage) ==> v.message == "Gagal menganalisis story"))
      && (v.Nothing? <==> stories == [] && (status == Idle || status == Completed))
      && (v.Card? ==>
            && Displayed(stories, selectedId).Some?
            && v.sections == Sections(Displayed(stories, selectedId).value)
            && (v.header.VersionDropdown? <==> |stories| > 1))
      && (!CardView(stories, status, selectedId, canRetry).Crash? ==> v == CardView(stories, status, selectedId, canRetry))
  {
  }

  // ---------------------------------------------------------------------------
  // Selection

  class StoryCardState {
    var selectedId: Option<int>
    /** `prevStatusRef.current`. */
    var prevStatus: CardStatus

    constructor(status: CardStatus)
      ensures selectedId == None && prevStatus == status
    {
      selectedId := None;
      prevStatus := status;
    }

    /**
     * The effect run after a render with these props. With analyses present, an empty
     * selection picks the newest, and a status that has just become `completed` switches
     * to the newest; either way the newest is then displayed.
     */
    method OnRender(stories: seq<Story>, status: CardStatus)
      modifies this
      ensures prevStatus == status
      ensures stories != [] && (Unselected(old(selectedId)) || (old(prevStatus) != Completed && status == Completed)) ==>
        selectedId == NewestId(stories) && Displayed(stories, selectedId) == Some(stories[0])
      ensures !(stories != [] && (Unselected(old(selectedId)) || (old(prevStatus) != Completed && status == Completed))) ==>
        selectedId == old(selectedId)
    {
      if |stories| > 0 {
        if Unselected(selectedId) {
          selectedId := NewestId(stories);
        }
        if prevStatus != Completed && status == Completed {
          selectedId := NewestId(stories);
        }
        NewestSelectionShowsNewest(stories);
      }
      prevStatus := status;
    }

    /** Picking a version in the dropdown (`Number(e.target.value)`). */
    method Choose(id: int)
      modifies this
      ensures selectedId == Some(id) && prevStatus == old(prevStatus)
    {
      selectedId := Some(id);
    }
  }
}
