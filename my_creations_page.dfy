/** The gallery of `src/pages/MyCreations.jsx`: the list read from the creations store,
    the selected creation of the detail view, deleting and clearing, and the texts the
    page derives from a creation (the count label, the download file name). */
module MyCreationsPage {
  import opened Base
  import opened JsStrings
  import opened Creations

  const FileNamePrefix := "pixscribe-"
  const FileNameSuffix := ".png"
  const Singular := "creation"
  const Plural := "creations"
  const SavedSuffix := " saved"

  /** The page's state fields as one value. */
  datatype ViewState = ViewState(creations: seq<Record>, selected: Option<Record>)

  /** What the content area shows: the empty state, the detail view of one creation, or
      the grid of all of them. */
  datatype View = EmptyView | DetailView(creation: Record) | GalleryView(cards: seq<Record>)

  /** `selectedCreation?.id === id`. */
  predicate SelectedHasId(s: ViewState, id: string) {
    s.selected.Some? && IdOf(s.selected.value) == Some(id)
  }

  /** The state after `handleDelete(id)`, given the list the store held before. */
  function AfterDelete(s: ViewState, stored: seq<Record>, id: string, confirmed: bool, writeSucceeds: bool): ViewState {
    if !confirmed then s
    else ViewState(if writeSucceeds then Without(stored, id) else stored,
                   if SelectedHasId(s, id) then None else s.selected)
  }

  /** The state after `handleClearAll()`, given the list the store held before. */
  function AfterClearAll(s: ViewState, stored: seq<Record>, confirmed: bool, removeSucceeds: bool): ViewState {
    if !confirmed then s
    else ViewState(if removeSucceeds then [] else stored, None)
  }

  /** The content area for a state. */
  function ViewOf(s: ViewState): View {
    if |s.creations| == 0 then EmptyView
    else if s.selected.Some? then DetailView(s.selected.value)
    else GalleryView(s.creations)
  }

  /** The Clear All button is rendered. */
  predicate ShowsClearAll(s: ViewState) {
    |s.creations| > 0
  }

  /** The noun of the count label. */
  function Noun(n: nat): string {
    if n == 1 then Singular else Plural
  }

  /** `{creations.length} {noun} saved`. */
  function CountLabel(n: nat): string {
    DecimalString(n) + " " + Noun(n) + SavedSuffix
  }

  /** A record field turned into a string, as a template literal or an assignment to a
      DOM string property does: its value, or `undefined` when the record has none. */
  function FieldText(c: Record, key: string): string {
    if key in c then c[key] else "undefined"
  }

  /** `${creation.id}` in the file name. */
  function IdText(c: Record): string {
    FieldText(c, "id")
  }

  /** `pixscribe-${creation.id}.png`. */
  function DownloadFileName(c: Record): string {
    FileNamePrefix + IdText(c) + FileNameSuffix
  }

  /** The id a download file name was made from: the partner of `DownloadFileName`. */
  function FileNameId(name: string): Option<string> {
    if |name| >= |FileNamePrefix| + |FileNameSuffix|
       && name[..|FileNamePrefix|] == FileNamePrefix
       && name[|name| - |FileNameSuffix|..] == FileNameSuffix
    then Some(name[|FileNamePrefix|..|name| - |FileNameSuffix|])
    else None
  }

  /** The anchor `handleDownload` clicks: `href` is the string assigned from the record's
      `imageUrl` and `download` its file name. */
  datatype Anchor = Anchor(href: string, download: string)

  /** The page component; `store` is the creations store it reads and writes. */
  class MyCreations {
    const store: CreationsStore
    var creations: seq<Record>
    var selectedCreation: Option<Record>

    function State(): ViewState
      reads this
    {
      ViewState(creations, selectedCreation)
    }

    /** Mounting: the initial empty state, then the mount effect's `loadCreations()`. */
    constructor (store: CreationsStore)
      ensures this.store == store
      ensures State() == ViewState(store.Creations(), None)
    {
      this.store := store;
      new;
      creations := [];
      selectedCreation := None;
      LoadCreations();
    }

    /** `loadCreations()`: the displayed list becomes what the store yields. */
    method LoadCreations()
      modifies this
      ensures State() == old(State()).(creations := store.Creations())
    {
      var saved := store.GetCreations();
      creations := saved;
    }

    /** `handleDelete(id)`; `confirmed` is the answer to `window.confirm`, `writeSucceeds`
        whether the store's write returned. */
    method HandleDelete(id: string, confirmed: bool, writeSucceeds: bool)
      modifies this, store
      ensures State() == AfterDelete(old(State()), old(store.Creations()), id, confirmed, writeSucceeds)
      ensures confirmed && writeSucceeds ==> store.slot == Holds(Without(old(store.Creations()), id))
      ensures !(confirmed && writeSucceeds) ==> store.slot == old(store.slot)
      ensures confirmed ==> creations == store.Creations()
    {
      if confirmed {
        var _ := store.DeleteCreation(id, writeSucceeds);
        LoadCreations();
        if selectedCreation.Some? && IdOf(selectedCreation.value) == Some(id) {
          selectedCreation := None;
        }
      }
    }

    /** `handleClearAll()`; `confirmed` is the answer to `window.confirm`, `removeSucceeds`
        whether the store's removal returned. */
    method HandleClearAll(confirmed: bool, removeSucceeds: bool)
      modifies this, store
      ensures State() == AfterClearAll(old(State()), old(store.Creations()), confirmed, removeSucceeds)
      ensures confirmed && removeSucceeds ==> store.slot == Absent
      ensures !(confirmed && removeSucceeds) ==> store.slot == old(store.slot)
      ensures confirmed ==> creations == store.Creations()
    {
      if confirmed {
        var _ := store.ClearAllCreations(removeSucceeds);
        LoadCreations();
        selectedCreation := None;
      }
    }

    /** A click on a card: `setSelectedCreation(creation)`. */
    method Select(c: Record)
      modifies this
      ensures State() == old(State()).(selected := Some(c))
    {
      selectedCreation := Some(c);
    }

    /** The back button of the detail view: `setSelectedCreation(null)`. */
    method Back()
      modifies this
      ensures State() == old(State()).(selected := None)
    {
      selectedCreation := None;
    }

    /** `handleDownload(creation, e)`: the anchor clicked; the event stops there, so the
        card's own click does not select the creation. */
    method HandleDownload(c: Record) returns (link: Anchor)
      ensures link.download == DownloadFileName(c)
      ensures "imageUrl" in c ==> link.href == c["imageUrl"]
      ensures "imageUrl" !in c ==> link.href == "undefined"
    {
      link := Anchor(FieldText(c, "imageUrl"), DownloadFileName(c));
    }
  }

  /** After a confirmed delete that was written, the list shown is the stored list with
      every record of that id gone and the others in their order. With distinct ids a
      present id removes exactly one card. */
  lemma DeleteShowsFiltered(s: ViewState, stored: seq<Record>, id: string)
    ensures var t := AfterDelete(s, stored, id, true, true);
      && t.creations == Without(stored, id)
      && (forall c :: c in t.creations ==> IdOf(c) != Some(id))
    ensures DistinctIds(stored) && !IdUnused(stored, id) ==>
      |AfterDelete(s, stored, id, true, true).creations| == |stored| - 1
  {
    if DistinctIds(stored) && !IdUnused(stored, id) {
      WithoutPresentDistinct(stored, id);
    }
  }

  /** A confirmed delete clears the selection exactly when it is the deleted id, whether
      or not the write succeeded; otherwise the selection stays, and a selected creation
      that was stored is still listed. */
  lemma DeleteSelection(s: ViewState, stored: seq<Record>, id: string, writeSucceeds: bool)
    ensures var t := AfterDelete(s, stored, id, true, writeSucceeds);
      && (t.selected.None? <==> s.selected.None? || SelectedHasId(s, id))
      && (!SelectedHasId(s, id) ==> t.selected == s.selected)
      && (t.selected.Some? && t.selected.value in stored ==> t.selected.value in t.creations)
  {
  }

  /** An unconfirmed delete or clear changes nothing. */
  lemma UnconfirmedChangesNothing(s: ViewState, stored: seq<Record>, id: string, ok: bool)
    ensures AfterDelete(s, stored, id, false, ok) == s
    ensures AfterClearAll(s, stored, false, ok) == s
  {
  }

  /** A confirmed clear that was written leaves the empty state with nothing selected,
      and the Clear All button disappears. */
  lemma ClearAllEmpties(s: ViewState, stored: seq<Record>)
    ensures AfterClearAll(s, stored, true, true) == ViewState([], None)
    ensures ViewOf(AfterClearAll(s, stored, true, true)) == EmptyView
    ensures !ShowsClearAll(AfterClearAll(s, stored, true, true))
  {
  }

  /** The content area: the empty state takes precedence over a selection, so a
      selection left over after the list became empty is not shown. */
  lemma ViewCases(s: ViewState)
    ensures ViewOf(s) == EmptyView <==> !ShowsClearAll(s)
    ensures ViewOf(s).DetailView? <==> ShowsClearAll(s) && s.selected.Some?
    ensures ViewOf(s).GalleryView? ==> ViewOf(s).cards == s.creations
  {
  }

  /** The label says `creation` exactly for one, and its number reads back as the count. */
  lemma CountLabelReadsBack(n: nat)
    ensures var d := DecimalString(n);
      && d <= CountLabel(n)
      && ParseDecimal(CountLabel(n)[..|d|]) == n
      && CountLabel(n)[|d|..] == " " + Noun(n) + SavedSuffix
    ensures Noun(n) == Singular <==> n == 1
  {
    var d := DecimalString(n);
    assert CountLabel(n) == d + (" " + Noun(n) + SavedSuffix);
    assert CountLabel(n)[..|d|] == d;
    ParseDecimalString(n);
  }

  /** Reading the id back out of a download file name gives the id it was made from. */
  lemma FileNameRoundTrip(c: Record)
    ensures FileNameId(DownloadFileName(c)) == Some(IdText(c))
  {
    var name := DownloadFileName(c);
    var n := |FileNamePrefix|;
    assert name == FileNamePrefix + (IdText(c) + FileNameSuffix);
    assert name[..n] == FileNamePrefix;
    assert name[|name| - |FileNameSuffix|..] == FileNameSuffix;
    assert name[n..|name| - |FileNameSuffix|] == IdText(c);
  }

  /** Records with different ids download under different file names. */
  lemma FileNameInjective(a: Record, b: Record)
    requires IdOf(a).Some? && IdOf(b).Some?
    ensures DownloadFileName(a) == DownloadFileName(b) <==> IdOf(a) == IdOf(b)
  {
    FileNameRoundTrip(a);
    FileNameRoundTrip(b);
  }
}
