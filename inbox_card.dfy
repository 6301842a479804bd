/** The inbox item record and the edit form of components/inbox-card.tsx:
    the comma-separated tag field, saving and cancelling an edit. */
module InboxCard {
  import opened Js

  datatype ContentType = TextContent | ImageContent

  datatype CardFace = CardFace(id: string, front: string, back: string)

  /** `InboxItem`; `createdAt` is in milliseconds since the epoch. */
  datatype InboxItem = InboxItem(
    id: string,
    title: string,
    content: string,
    contentType: ContentType,
    imageUrl: Option<string>,
    summary: string,
    tags: seq<string>,
    flashcards: seq<CardFace>,
    createdAt: int,
    processed: bool)

  /** `parts.map(f)`. */
  function Mapped(f: string -> string, parts: seq<string>): (r: seq<string>)
    ensures |r| == |parts|
    ensures forall i :: 0 <= i < |parts| ==> r[i] == f(parts[i])
  {
    seq(|parts|, i requires 0 <= i < |parts| => f(parts[i]))
  }

  /** `parts.map((tag) => tag.trim())`. */
  function TrimAll(parts: seq<string>): (r: seq<string>)
    ensures |r| == |parts|
    ensures forall i :: 0 <= i < |parts| ==> r[i] == Trim(parts[i])
  {
    Mapped(Trim, parts)
  }

  /** `.filter(Boolean)` on strings: the non-empty ones, in order. */
  function NonEmpty(strs: seq<string>): (r: seq<string>)
    ensures |r| <= |strs|
    ensures forall s :: s in r <==> s in strs && s != ""
  {
    if strs == [] then []
    else
      var rest := NonEmpty(strs[1..]);
      if strs[0] == "" then rest else [strs[0]] + rest
  }

  /** `parts.map((tag) => tag.trim()).filter(Boolean)`. */
  function TrimmedTags(parts: seq<string>): (tags: seq<string>)
    ensures |tags| <= |parts|
  {
    NonEmpty(TrimAll(parts))
  }

  /** Every tag kept is non-empty and trimmed. */
  lemma TrimmedTagsClean(parts: seq<string>)
    ensures forall k :: 0 <= k < |TrimmedTags(parts)| ==> TrimmedTags(parts)[k] != "" && IsTrimmed(TrimmedTags(parts)[k])
  {
    var tags := TrimmedTags(parts);
    forall k | 0 <= k < |tags| ensures tags[k] != "" && IsTrimmed(tags[k]) {
      var t := tags[k];
      var trimmed := TrimAll(parts);
      assert t in tags;
      assert t in trimmed;
      var i :| 0 <= i < |trimmed| && trimmed[i] == t;
      assert t == Trim(parts[i]);
    }
  }

  /** The tags typed into the tag field: split at commas, trimmed, empty ones dropped. */
  function ParseTags(text: string): (tags: seq<string>)
    ensures |tags| <= CountChar(text, ',') + 1
    ensures forall k :: 0 <= k < |tags| ==> tags[k] != "" && IsTrimmed(tags[k])
  {
    TrimmedTagsClean(Split(text, ','));
    TrimmedTags(Split(text, ','))
  }

  lemma {:induction false} NonEmptyAppend(a: seq<string>, b: seq<string>)
    ensures NonEmpty(a + b) == NonEmpty(a) + NonEmpty(b)
  {
    if a == [] {
      assert a + b == b;
    } else {
      assert (a + b)[1..] == a[1..] + b;
      NonEmptyAppend(a[1..], b);
    }
  }

  lemma MappedAppend(f: string -> string, a: seq<string>, b: seq<string>)
    ensures Mapped(f, a + b) == Mapped(f, a) + Mapped(f, b)
  {
    var l := Mapped(f, a + b);
    var r := Mapped(f, a) + Mapped(f, b);
    forall i | 0 <= i < |l| ensures l[i] == r[i] {
      if i < |a| {
        assert (a + b)[i] == a[i];
      } else {
        assert (a + b)[i] == b[i - |a|];
      }
    }
  }

  lemma TrimmedTagsAppend(a: seq<string>, b: seq<string>)
    ensures TrimmedTags(a + b) == TrimmedTags(a) + TrimmedTags(b)
  {
    MappedAppend(Trim, a, b);
    NonEmptyAppend(TrimAll(a), TrimAll(b));
  }

  /** Non-empty strings all pass the filter. */
  lemma {:induction false} NonEmptyKeepsAll(strs: seq<string>)
    requires forall k :: 0 <= k < |strs| ==> strs[k] != ""
    ensures NonEmpty(strs) == strs
  {
    if strs != [] {
      NonEmptyKeepsAll(strs[1..]);
    }
  }

  /** A single piece gives its trimmed text, unless that is empty. */
  lemma TrimmedOne(part: string)
    ensures TrimmedTags([part]) == if Trim(part) == "" then [] else [Trim(part)]
  {
    var t := Trim(part);
    assert TrimAll([part]) == [t];
    assert [t][1..] == [];
  }

  lemma TrimmedOneClean(part: string)
    requires part != "" && IsTrimmed(part)
    ensures TrimmedTags([part]) == [part]
  {
    TrimmedOne(part);
  }

  /** The tags keep the order they were typed in: the text before the first
      comma gives the first tags, the rest the others. */
  lemma ParseTagsAtComma(a: string, b: string)
    requires ',' !in a
    ensures ParseTags(a + [','] + b) == (if Trim(a) == "" then [] else [Trim(a)]) + ParseTags(b)
  {
    SplitAppend(a, b, ',');
    TrimmedTagsAppend([a], Split(b, ','));
    TrimmedOne(a);
  }

  /** Each tag written with one space before it, as after `", "`. */
  function Spaced(tags: seq<string>): (r: seq<string>)
    ensures |r| == |tags|
  {
    if tags == [] then [] else [" " + tags[0]] + Spaced(tags[1..])
  }

  lemma {:induction false} SpacedAt(tags: seq<string>, k: nat)
    requires k < |tags|
    ensures Spaced(tags)[k] == " " + tags[k]
  {
    if k > 0 {
      SpacedAt(tags[1..], k - 1);
    }
  }

  lemma {:induction false} JoinSpaced(tags: seq<string>)
    requires tags != []
    ensures " " + Join(tags, ", ") == Join(Spaced(tags), ",")
  {
    if |tags| > 1 {
      JoinSpaced(tags[1..]);
      assert Spaced(tags)[1..] == Spaced(tags[1..]);
      assert " " + Join(tags, ", ") == (" " + tags[0]) + "," + (" " + Join(tags[1..], ", "));
    }
  }

  /** Trimming a space off a trimmed, non-empty tag gives the tag. */
  lemma TrimSpaced(t: string)
    requires t != [] && IsTrimmed(t)
    ensures Trim(" " + t) == t
  {
    assert (" " + t)[1..] == t;
    assert TrimStart(" " + t) == TrimStart(t);
  }

  lemma TrimmedSpacedTags(tags: seq<string>)
    requires forall k :: 0 <= k < |tags| ==> tags[k] != "" && IsTrimmed(tags[k])
    ensures TrimmedTags(Spaced(tags)) == tags
  {
    var sp := Spaced(tags);
    forall k | 0 <= k < |tags| ensures TrimAll(sp)[k] == tags[k] {
      SpacedAt(tags, k);
      TrimSpaced(tags[k]);
    }
    assert TrimAll(sp) == tags;
    NonEmptyKeepsAll(tags);
  }

  /** A clean tag: non-empty, trimmed, without a comma. */
  predicate CleanTag(t: string) {
    t != "" && IsTrimmed(t) && ',' !in t
  }

  lemma CommaThenSpace(a: string, t: string)
    ensures a + "," + (" " + t) == a + ", " + t
  {
    assert ", " == "," + " ";
    assert a + "," + (" " + t) == a + ("," + " ") + t;
  }

  /** `tags.join(", ")` is the first tag and the others, each after a space,
      joined by commas. */
  lemma JoinAsParts(tags: seq<string>)
    requires tags != []
    ensures Join(tags, ", ") == Join([tags[0]] + Spaced(tags[1..]), ",")
  {
    var parts := [tags[0]] + Spaced(tags[1..]);
    if |tags| > 1 {
      JoinSpaced(tags[1..]);
      var tail := Join(tags[1..], ", ");
      assert parts[1..] == Spaced(tags[1..]);
      assert Join(parts, ",") == tags[0] + "," + Join(Spaced(tags[1..]), ",");
      CommaThenSpace(tags[0], tail);
    } else {
      assert parts == tags;
    }
  }

  lemma TrimmedParts(tags: seq<string>)
    requires tags != []
    requires forall k :: 0 <= k < |tags| ==> CleanTag(tags[k])
    ensures TrimmedTags([tags[0]] + Spaced(tags[1..])) == tags
  {
    var rest := tags[1..];
    assert forall k :: 0 <= k < |rest| ==> rest[k] == tags[k + 1];
    TrimmedTagsAppend([tags[0]], Spaced(rest));
    TrimmedOneClean(tags[0]);
    TrimmedSpacedTags(rest);
    assert TrimmedTags([tags[0]]) + TrimmedTags(Spaced(rest)) == [tags[0]] + rest;
    assert [tags[0]] + rest == tags;
  }

  lemma PartsWithoutComma(tags: seq<string>)
    requires tags != []
    requires forall k :: 0 <= k < |tags| ==> ',' !in tags[k]
    ensures forall k :: 0 <= k < |tags| ==> ',' !in ([tags[0]] + Spaced(tags[1..]))[k]
  {
    var parts := [tags[0]] + Spaced(tags[1..]);
    forall k | 0 <= k < |parts|
      ensures ',' !in parts[k]
    {
      if k > 0 {
        SpacedAt(tags[1..], k - 1);
        assert parts[k] == " " + tags[k];
      }
    }
  }

  /** Parsing the text the form shows for a list of clean tags, `tags.join(", ")`,
      gives the list back. */
  lemma ParseJoinedTags(tags: seq<string>)
    requires forall k :: 0 <= k < |tags| ==> CleanTag(tags[k])
    ensures ParseTags(Join(tags, ", ")) == tags
  {
    if tags == [] {
      assert Split("", ',') == [""];
    } else {
      var parts := [tags[0]] + Spaced(tags[1..]);
      JoinAsParts(tags);
      PartsWithoutComma(tags);
      SplitJoin(parts, ',');
      TrimmedParts(tags);
    }
  }

  /** The fields `handleSave` passes to `onUpdate`. */
  datatype ItemUpdate = ItemUpdate(title: string, summary: string, tags: seq<string>)

  /** One inbox card with its edit form. */
  class EditForm {
    const item: InboxItem
    var isEditing: bool
    var editedTitle: string
    var editedSummary: string
    var editedTags: string

    constructor (item: InboxItem)
      ensures this.item == item && !isEditing
      ensures editedTitle == item.title && editedSummary == item.summary
      ensures editedTags == Join(item.tags, ", ")
    {
      this.item := item;
      isEditing := false;
      editedTitle := item.title;
      editedSummary := item.summary;
      editedTags := Join(item.tags, ", ");
    }

    /** `handleSave()`: hands the edited title, summary and parsed tags to
        `onUpdate` for this item and leaves edit mode. */
    method HandleSave() returns (id: string, update: ItemUpdate)
      modifies this
      ensures id == item.id
      ensures update == ItemUpdate(old(editedTitle), old(editedSummary), ParseTags(old(editedTags)))
      ensures !isEditing
      ensures unchanged(`editedTitle, `editedSummary, `editedTags)
    {
      var tags := ParseTags(editedTags);
      id, update := item.id, ItemUpdate(editedTitle, editedSummary, tags);
      isEditing := false;
    }

    /** `handleCancel()`: the three buffers are reset from the item and edit mode ends. */
    method HandleCancel()
      modifies this
      ensures !isEditing
      ensures editedTitle == item.title && editedSummary == item.summary
      ensures editedTags == Join(item.tags, ", ")
    {
      editedTitle := item.title;
      editedSummary := item.summary;
      editedTags := Join(item.tags, ", ");
      isEditing := false;
    }
  }

  /** Cancelling and then saving without typing hands back the item's own
      title, summary and (clean) tags. */
  method CancelThenSave(form: EditForm) returns (update: ItemUpdate)
    requires forall k :: 0 <= k < |form.item.tags| ==> CleanTag(form.item.tags[k])
    modifies form
    ensures update == ItemUpdate(form.item.title, form.item.summary, form.item.tags)
  {
    form.HandleCancel();
    var id;
    id, update := form.HandleSave();
    ParseJoinedTags(form.item.tags);
  }
}
