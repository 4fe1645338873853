/**
 * The admin menu page (frontend/src/pages/admin/MenuManagement.tsx): the edit form and its tag
 * text, the submitted data, and the local list updates after toggling and deleting.
 */
module MenuAdmin {
  import opened Wrappers
  import opened Strings
  import opened Collections

  /** A menu item as the admin page holds it. */
  datatype AdminMenuItem = AdminMenuItem(
    id: string, name: string, description: string, category: string, price: int, isAvailable: bool, tags: seq<string>)

  // ----- Tags -----

  /** `t.trim()` over every piece. */
  function TrimAll(pieces: seq<string>): (r: seq<string>)
    ensures |r| == |pieces|
    ensures forall i :: 0 <= i < |pieces| ==> r[i] == Trim(pieces[i])
  {
    Map(pieces, Trim)
  }

  predicate NonEmpty(s: string) {
    s != ""
  }

  /** A tag the text field can carry through unchanged. */
  predicate CanonicalTag(t: string) {
    t != "" && IsTrimmed(t) && ',' !in t
  }

  /** A trimmed piece of a comma-free string is comma-free. */
  lemma TrimNoComma(s: string)
    requires ',' !in s
    ensures ',' !in Trim(s)
  {
    var r := Trim(s);
    TrimIsInfix(s);
    var i := |s| - |TrimStart(s)|;
    forall k | 0 <= k < |r| ensures r[k] != ',' {
      assert r[k] == s[i + k];
    }
  }

  /** Trimmed comma-free pieces are all trimmed and comma-free. */
  lemma PiecesClean(text: string)
    ensures forall i :: 0 <= i < |TrimAll(Split(text, ','))| ==>
      IsTrimmed(TrimAll(Split(text, ','))[i]) && ',' !in TrimAll(Split(text, ','))[i]
  {
    var parts := Split(text, ',');
    var pieces := TrimAll(parts);
    forall i | 0 <= i < |pieces| ensures IsTrimmed(pieces[i]) && ',' !in pieces[i] {
      assert pieces[i] == Trim(parts[i]);
      assert ',' !in parts[i];
      TrimNoComma(parts[i]);
    }
  }

  /** The submitted tags: split on ',', trim each piece, drop the empty ones. */
  function ParseTags(text: string): (tags: seq<string>)
    ensures forall t :: t in tags ==> CanonicalTag(t)
  {
    PiecesClean(text);
    KeptAreCanonical(TrimAll(Split(text, ',')));
    Clean(Split(text, ','))
  }

  /** Trim every piece and keep the non-empty ones. */
  function Clean(pieces: seq<string>): seq<string> {
    Filter(TrimAll(pieces), NonEmpty)
  }

  lemma TrimAllCons(p: string, tail: seq<string>)
    ensures TrimAll([p] + tail) == [Trim(p)] + TrimAll(tail)
  {
    MapCons(p, tail, Trim);
  }

  lemma CleanCons(p: string, tail: seq<string>)
    ensures Clean([p] + tail) == PieceTags(p) + Clean(tail)
  {
    TrimAllCons(p, tail);
    FilterCons(Trim(p), TrimAll(tail), NonEmpty);
  }

  lemma KeptAreCanonical(pieces: seq<string>)
    requires forall i :: 0 <= i < |pieces| ==> IsTrimmed(pieces[i]) && ',' !in pieces[i]
    ensures forall t :: t in Filter(pieces, NonEmpty) ==> CanonicalTag(t)
  {
    forall t | t in Filter(pieces, NonEmpty) ensures CanonicalTag(t) {
      assert t in pieces && NonEmpty(t);
      var i :| 0 <= i < |pieces| && pieces[i] == t;
    }
  }

  /** The tag text of the edit form: the tags joined by ", ". */
  function JoinTags(tags: seq<string>): string {
    Join(tags, ", ")
  }

  predicate AllSpaces(sp: string) {
    forall i :: 0 <= i < |sp| ==> IsSpace(sp[i])
  }

  /** The tag a single comma-free piece contributes: its trimmed text, unless that is empty. */
  function PieceTags(p: string): seq<string> {
    if Trim(p) == "" then [] else [Trim(p)]
  }

  lemma ParseOne(p: string)
    requires ',' !in p
    ensures ParseTags(p) == PieceTags(p)
  {
    SplitNoSep(p, ',');
    CleanCons(p, []);
    assert [p] + [] == [p];
  }

  lemma ParseCons(p: string, rest: string)
    requires ',' !in p
    ensures ParseTags(p + [','] + rest) == PieceTags(p) + ParseTags(rest)
  {
    SplitPiece(p, ',', rest);
    CleanCons(p, Split(rest, ','));
  }

  lemma SpacesNoComma(sp: string)
    requires AllSpaces(sp)
    ensures ',' !in sp
  {
    forall i | 0 <= i < |sp| ensures sp[i] != ',' {
      assert IsSpace(sp[i]);
    }
  }

  /** Spaces alone give no tag. */
  lemma ParseSpaces(sp: string)
    requires AllSpaces(sp)
    ensures ParseTags(sp) == []
  {
    SpacesNoComma(sp);
    var empty: string := [];
    assert sp + empty == sp;
    TrimAfterSpaces(sp, empty);
    assert Trim(sp) == empty;
    ParseOne(sp);
  }

  /** Spaces and one canonical tag give that tag. */
  lemma ParseSpacedTag(sp: string, t: string)
    requires AllSpaces(sp) && CanonicalTag(t)
    ensures ',' !in sp + t
    ensures PieceTags(sp + t) == [t]
  {
    SpacesNoComma(sp);
    TrimAfterSpaces(sp, t);
  }

  /** Parsing leading spaces and then the joined tags gives the tags back. */
  lemma {:induction false} ParseJoinAfter(sp: string, tags: seq<string>)
    requires AllSpaces(sp)
    requires forall i :: 0 <= i < |tags| ==> CanonicalTag(tags[i])
    ensures ParseTags(sp + JoinTags(tags)) == tags
    decreases |tags|
  {
    if |tags| == 0 {
      assert sp + JoinTags(tags) == sp;
      ParseSpaces(sp);
    } else if |tags| == 1 {
      assert sp + JoinTags(tags) == sp + tags[0];
      ParseSpacedTag(sp, tags[0]);
      ParseOne(sp + tags[0]);
    } else {
      var t, rest := tags[0], tags[1..];
      var tail := " " + JoinTags(rest);
      assert sp + JoinTags(tags) == (sp + t) + [','] + tail;
      ParseSpacedTag(sp, t);
      ParseCons(sp + t, tail);
      assert AllSpaces(" ");
      ParseJoinAfter(" ", rest);
    }
  }

  /** Tags that are non-empty, trimmed and comma-free survive the trip through the text field. */
  lemma TagsRoundTrip(tags: seq<string>)
    requires forall i :: 0 <= i < |tags| ==> CanonicalTag(tags[i])
    ensures ParseTags(JoinTags(tags)) == tags
  {
    assert "" + JoinTags(tags) == JoinTags(tags);
    ParseJoinAfter("", tags);
  }

  /** Saving a form again without touching it keeps the tags that the first save produced. */
  lemma ParseIsStable(text: string)
    ensures ParseTags(JoinTags(ParseTags(text))) == ParseTags(text)
  {
    var tags := ParseTags(text);
    assert forall i :: 0 <= i < |tags| ==> CanonicalTag(tags[i]) by {
      forall i | 0 <= i < |tags| ensures CanonicalTag(tags[i]) {
        assert tags[i] in tags;
      }
    }
    TagsRoundTrip(tags);
  }

  // ----- Price text -----

  /** `price.toString()` for a whole price. */
  function PriceText(p: int): string {
    if p >= 0 then NatToString(p) else "-" + NatToString(-p)
  }

  predicate AllDigits(s: string) {
    forall i :: 0 <= i < |s| ==> IsDigit(s[i])
  }

  /** The price a form field holds: an optionally signed run of digits, anything else not a number. */
  function ParsePrice(s: string): (r: Option<int>)
    ensures r.Some? && s != [] && s[0] != '-' ==> r.value >= 0
  {
    if s != [] && AllDigits(s) then Some(DigitsValue(s))
    else if |s| >= 2 && s[0] == '-' && AllDigits(s[1..]) then Some(0 - (DigitsValue(s[1..]) as int))
    else None
  }

  /** A price shown in the form reads back as the same price. */
  lemma PriceRoundTrip(p: int)
    ensures ParsePrice(PriceText(p)) == Some(p)
  {
    if p >= 0 {
      NatToStringValue(p);
    } else {
      NatToStringValue(-p);
      var s := PriceText(p);
      assert s[1..] == NatToString(-p);
      assert !IsDigit(s[0]);
    }
  }

  // ----- Form -----

  datatype FormData = FormData(name: string, description: string, category: string, price: string, tags: string)

  const EMPTY_FORM := FormData("", "", "", "", "")

  /** The form `openModal(item)` fills in. */
  function FormOf(item: AdminMenuItem): FormData {
    FormData(item.name, item.description, item.category, PriceText(item.price), JoinTags(item.tags))
  }

  /** What `handleSubmit` sends. */
  datatype MenuSubmission = MenuSubmission(name: string, description: string, category: string, price: Option<int>, tags: seq<string>)

  function SubmitData(form: FormData): (d: MenuSubmission)
    ensures forall t :: t in d.tags ==> CanonicalTag(t)
    ensures d.name == form.name && d.description == form.description && d.category == form.category
  {
    MenuSubmission(form.name, form.description, form.category, ParsePrice(form.price), ParseTags(form.tags))
  }

  /** Opening an item and saving without edits sends its own fields back when its tags are canonical. */
  lemma UneditedSaveKeepsItem(item: AdminMenuItem)
    requires forall i :: 0 <= i < |item.tags| ==> CanonicalTag(item.tags[i])
    ensures SubmitData(FormOf(item)) == MenuSubmission(item.name, item.description, item.category, Some(item.price), item.tags)
  {
    TagsRoundTrip(item.tags);
    PriceRoundTrip(item.price);
  }

  // ----- List updates -----

  function Flipped(i: AdminMenuItem, id: string): AdminMenuItem {
    if i.id == id then i.(isAvailable := !i.isAvailable) else i
  }

  /** `handleToggle`: the matching item's availability flips; everything else stays. */
  function ToggleItem(items: seq<AdminMenuItem>, id: string): (r: seq<AdminMenuItem>)
    ensures |r| == |items|
    ensures forall k :: 0 <= k < |items| ==> r[k] == Flipped(items[k], id)
  {
    if items == [] then [] else [Flipped(items[0], id)] + ToggleItem(items[1..], id)
  }

  /** Toggling the same item twice restores the list. */
  lemma ToggleTwice(items: seq<AdminMenuItem>, id: string)
    ensures ToggleItem(ToggleItem(items, id), id) == items
  {
    var r := ToggleItem(ToggleItem(items, id), id);
    assert forall k :: 0 <= k < |items| ==> r[k] == items[k];
  }

  function OtherItem(id: string): AdminMenuItem -> bool {
    (i: AdminMenuItem) => i.id != id
  }

  /** `handleDelete`: exactly the items with that id go; the rest keep their order. */
  function DeleteItem(items: seq<AdminMenuItem>, id: string): (r: seq<AdminMenuItem>)
    ensures forall i :: i in r <==> i in items && i.id != id
    ensures IsSubsequence(r, items)
  {
    FilterIsSubsequence(items, OtherItem(id));
    Filter(items, OtherItem(id))
  }

  /** The page state. */
  class MenuManagementPage {
    var items: seq<AdminMenuItem>
    var editingItem: Option<AdminMenuItem>
    var form: FormData
    var showModal: bool

    constructor(fetched: seq<AdminMenuItem>)
      ensures items == fetched && editingItem == None && form == EMPTY_FORM && !showModal
    {
      items, editingItem, form, showModal := fetched, None, EMPTY_FORM, false;
    }

    /** `openModal`: an item fills the form from its fields; no item clears every field and the edit target. */
    method OpenModal(item: Option<AdminMenuItem>)
      modifies this
      ensures item.Some? ==> editingItem == item && form == FormOf(item.value)
      ensures item.None? ==> editingItem == None && form == EMPTY_FORM
      ensures showModal && items == old(items)
    {
      if item.Some? {
        editingItem, form := item, FormOf(item.value);
      } else {
        editingItem, form := None, EMPTY_FORM;
      }
      showModal := true;
    }

    /** The local part of `handleToggle`, after the server call. */
    method HandleToggle(id: string)
      modifies this
      ensures items == ToggleItem(old(items), id)
      ensures editingItem == old(editingItem) && form == old(form) && showModal == old(showModal)
    {
      items := ToggleItem(items, id);
    }

    /** The local part of `handleDelete`; `confirmed` is the answer to the confirmation dialog. */
    method HandleDelete(id: string, confirmed: bool)
      modifies this
      ensures confirmed ==> items == DeleteItem(old(items), id)
      ensures !confirmed ==> items == old(items)
      ensures editingItem == old(editingItem) && form == old(form) && showModal == old(showModal)
    {
      if confirmed {
        items := DeleteItem(items, id);
      }
    }
  }
}
