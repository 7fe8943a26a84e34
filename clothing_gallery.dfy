/** The outfit catalog: the seeded list, the list transformations behind
    delete, edit and add, price normalisation, submit validation, and the
    gallery screen's state with its handlers. */
module ClothingGallery {
  import opened Common
  import opened Text
  import opened Types

  datatype ClothingItem = ClothingItem(id: string, title: string, src: string, price: string)

  /** The add/edit form; `previewUrl` is "" when there is none. */
  datatype FormData = FormData(title: string, price: string, file: Option<FileRef>, previewUrl: string)

  const EmptyForm: FormData := FormData("", "", None, "")
  const InitialItemCount: nat := 12
  const SeedImageSrc: string := "/red-dress.jpg"
  const FeaturedTitle: string := "Signature Red Cocktail Dress"

  // ---------------------------------------------------------------------------
  // The seeded catalog

  /** The catalog shown when nothing was saved: twelve dresses, `dress-1` to
      `dress-12`, priced from $150 in steps of $10, all with the same picture;
      the first has its own title and the others are numbered gowns. */
  function InitialItems(): (items: seq<ClothingItem>)
    ensures |items| == 12
    ensures forall i :: 0 <= i < |items| ==>
              items[i].id == "dress-" + NatToString(i + 1) &&
              items[i].src == "/red-dress.jpg" &&
              items[i].price == "$" + NatToString(150 + 10 * i)
    ensures items[0].title == "Signature Red Cocktail Dress"
    ensures forall i :: 1 <= i < |items| ==> items[i].title == "Elegant Evening Gown " + NatToString(i + 1)
  {
    seq(InitialItemCount, i requires 0 <= i < InitialItemCount =>
      ClothingItem(
        "dress-" + NatToString(i + 1),
        if i == 0 then FeaturedTitle else "Elegant Evening Gown " + NatToString(i + 1),
        SeedImageSrc,
        "$" + NatToString(150 + i * 10)))
  }

  /** No two items of the list share an id. */
  predicate DistinctIds(items: seq<ClothingItem>)
  {
    forall i, j :: 0 <= i < j < |items| ==> items[i].id != items[j].id
  }

  /** Prepending a common prefix keeps distinct strings distinct. */
  lemma PrefixCancels(prefix: string, a: string, b: string)
    requires prefix + a == prefix + b
    ensures a == b
  {
    assert a == (prefix + a)[|prefix|..];
    assert b == (prefix + b)[|prefix|..];
  }

  /** The seeded ids are pairwise distinct. */
  lemma InitialIdsDistinct()
    ensures DistinctIds(InitialItems())
  {
    var items := InitialItems();
    forall i, j | 0 <= i < j < |items| ensures items[i].id != items[j].id {
      if items[i].id == items[j].id {
        PrefixCancels("dress-", NatToString(i + 1), NatToString(j + 1));
        NatToStringInjective(i + 1, j + 1);
      }
    }
  }

  /** The id `custom-<timestamp>` given to an added item. */
  function CustomId(now: nat): string
  {
    "custom-" + NatToString(now)
  }

  /** An added item's id never clashes with a seeded one. */
  lemma CustomIdNotSeeded(now: nat)
    ensures forall i :: 0 <= i < |InitialItems()| ==> InitialItems()[i].id != CustomId(now)
  {
    var items := InitialItems();
    forall i | 0 <= i < |items| ensures items[i].id != CustomId(now) {
      assert items[i].id[0] == 'd';
      assert CustomId(now)[0] == 'c';
    }
  }

  // ---------------------------------------------------------------------------
  // List transformations

  /** `items.filter(i => i.id !== id)` */
  function RemoveItem(items: seq<ClothingItem>, id: string): (r: seq<ClothingItem>)
    ensures |r| <= |items|
    ensures forall x :: x in r <==> x in items && x.id != id
    decreases |items|
  {
    if |items| == 0 then []
    else (if items[0].id == id then [] else [items[0]]) + RemoveItem(items[1..], id)
  }

  /** Filtering works piecewise, so the kept items stay in their original order. */
  lemma {:induction false} RemoveItemAppend(a: seq<ClothingItem>, b: seq<ClothingItem>, id: string)
    ensures RemoveItem(a + b, id) == RemoveItem(a, id) + RemoveItem(b, id)
    decreases |a|
  {
    if |a| > 0 {
      assert (a + b)[1..] == a[1..] + b;
      RemoveItemAppend(a[1..], b, id);
    } else {
      assert a + b == b;
    }
  }

  /** Removing an id nobody has changes nothing. */
  lemma {:induction false} RemoveAbsentId(items: seq<ClothingItem>, id: string)
    requires forall k :: 0 <= k < |items| ==> items[k].id != id
    ensures RemoveItem(items, id) == items
    decreases |items|
  {
    if |items| > 0 {
      RemoveAbsentId(items[1..], id);
    }
  }

  /** Putting an item with a fresh id in front of a list without duplicate ids keeps ids distinct. */
  lemma PrependDistinct(x: ClothingItem, items: seq<ClothingItem>)
    requires DistinctIds(items)
    requires forall y :: y in items ==> y.id != x.id
    ensures DistinctIds([x] + items)
  {
    var s := [x] + items;
    forall i, j | 0 <= i < j < |s| ensures s[i].id != s[j].id {
      assert s[j] == items[j - 1];
      if i > 0 { assert s[i] == items[i - 1]; }
    }
  }

  /** Deleting keeps ids distinct. */
  lemma {:induction false} RemoveKeepsDistinct(items: seq<ClothingItem>, id: string)
    requires DistinctIds(items)
    ensures DistinctIds(RemoveItem(items, id))
    decreases |items|
  {
    if |items| > 0 {
      var rest := items[1..];
      assert DistinctIds(rest) by {
        forall i, j | 0 <= i < j < |rest| ensures rest[i].id != rest[j].id {
          assert rest[i] == items[i + 1] && rest[j] == items[j + 1];
        }
      }
      RemoveKeepsDistinct(rest, id);
      if items[0].id != id {
        forall y | y in RemoveItem(rest, id) ensures y.id != items[0].id {
          var k :| 0 <= k < |rest| && rest[k] == y;
          assert items[k + 1] == y;
        }
        PrependDistinct(items[0], RemoveItem(rest, id));
      }
    }
  }

  /** `items.map(item => item.id === id ? { ...item, title, price, src } : item)` */
  function UpdateItem(items: seq<ClothingItem>, id: string, title: string, price: string, src: string)
    : (r: seq<ClothingItem>)
    ensures |r| == |items|
    ensures forall k :: 0 <= k < |r| ==> r[k].id == items[k].id
    ensures forall k :: 0 <= k < |r| && items[k].id != id ==> r[k] == items[k]
    ensures forall k :: 0 <= k < |r| && items[k].id == id ==>
              r[k].title == title && r[k].price == price && r[k].src == src
  {
    seq(|items|, k requires 0 <= k < |items| =>
      if items[k].id == id then items[k].(title := title, price := price, src := src) else items[k])
  }

  /** Editing keeps ids distinct (it keeps every id where it was). */
  lemma UpdateKeepsDistinct(items: seq<ClothingItem>, id: string, title: string, price: string, src: string)
    requires DistinctIds(items)
    ensures DistinctIds(UpdateItem(items, id, title, price, src))
  {
  }

  /** Editing twice with the same values is editing once. */
  lemma UpdateIdempotent(items: seq<ClothingItem>, id: string, title: string, price: string, src: string)
    ensures UpdateItem(UpdateItem(items, id, title, price, src), id, title, price, src)
            == UpdateItem(items, id, title, price, src)
  {
  }

  // ---------------------------------------------------------------------------
  // The form

  /** A price as stored: prefixed with `$` unless it already starts with one. */
  function NormalizePrice(price: string): (r: string)
    ensures StartsWith(r, "$")
    ensures r == price <==> StartsWith(price, "$")
    ensures r == price || r == "$" + price
  {
    if StartsWith(price, "$") then price else "$" + price
  }

  /** Normalising a normalised price changes nothing. */
  lemma NormalizePriceIdempotent(price: string)
    ensures NormalizePrice(NormalizePrice(price)) == NormalizePrice(price)
  {
  }

  /** Submission goes ahead only with a title, a price, and a picture (a new
      file or the existing preview). */
  predicate CanSubmit(form: FormData)
  {
    form.title != "" && form.price != "" && (form.file.Some? || form.previewUrl != "")
  }

  /** The picture stored with the item: the data URL of a newly chosen file,
      otherwise the existing preview. */
  function ImageSource(form: FormData, fileDataUrl: string): (src: string)
    ensures form.file.None? ==> src == form.previewUrl
    ensures form.file.Some? ==> src == fileDataUrl
  {
    if form.file.Some? then fileDataUrl else form.previewUrl
  }

  // ---------------------------------------------------------------------------
  // The gallery screen

  class Gallery {
    var items: seq<ClothingItem>
    var isModalOpen: bool
    var editingItem: Option<ClothingItem>
    var formData: FormData

    /** Whenever the modal is closed the form is empty and nothing is being edited. */
    predicate Valid()
      reads this
    {
      !isModalOpen ==> formData == EmptyForm && editingItem.None?
    }

    /** Mounting the screen: the saved list if there is one, otherwise the seeded catalog. */
    constructor (saved: Option<seq<ClothingItem>>)
      ensures Valid() && !isModalOpen
      ensures items == (if saved.Some? then saved.value else InitialItems())
    {
      items := if saved.Some? then saved.value else InitialItems();
      isModalOpen := false;
      editingItem := None;
      formData := EmptyForm;
    }

    /** The "Add New Item" card opens the modal with whatever the form holds. */
    method OpenAddModal()
      requires Valid()
      modifies this
      ensures Valid() && isModalOpen
      ensures items == old(items) && formData == old(formData) && editingItem == old(editingItem)
    {
      isModalOpen := true;
    }

    /** Closing the modal; the effect on `isModalOpen` then empties the form
        and forgets the item being edited. */
    method CloseModal()
      requires Valid()
      modifies this
      ensures Valid() && !isModalOpen
      ensures formData == EmptyForm && editingItem.None? && items == old(items)
    {
      isModalOpen := false;
      formData := EmptyForm;
      editingItem := None;
    }

    /** The edit button: the form is filled from the item, without a file. */
    method HandleEditClick(item: ClothingItem)
      requires Valid()
      modifies this
      ensures Valid() && isModalOpen
      ensures editingItem == Some(item)
      ensures formData == FormData(item.title, item.price, None, item.src)
      ensures items == old(items)
    {
      editingItem := Some(item);
      formData := FormData(item.title, item.price, None, item.src);
      isModalOpen := true;
    }

    /** The delete button, with the user's answer to the confirmation dialog. */
    method HandleDeleteClick(itemId: string, confirmed: bool)
      requires Valid()
      modifies this
      ensures Valid()
      ensures items == if confirmed then RemoveItem(old(items), itemId) else old(items)
      ensures isModalOpen == old(isModalOpen) && formData == old(formData) && editingItem == old(editingItem)
    {
      if confirmed {
        items := RemoveItem(items, itemId);
      }
    }

    method SetTitle(title: string)
      requires Valid() && isModalOpen
      modifies this
      ensures Valid() && isModalOpen
      ensures formData == old(formData).(title := title)
      ensures items == old(items) && editingItem == old(editingItem)
    {
      formData := formData.(title := title);
    }

    method SetPrice(price: string)
      requires Valid() && isModalOpen
      modifies this
      ensures Valid() && isModalOpen
      ensures formData == old(formData).(price := price)
      ensures items == old(items) && editingItem == old(editingItem)
    {
      formData := formData.(price := price);
    }

    /** Choosing a file keeps it and shows it through a fresh object URL. */
    method ChooseFile(file: FileRef, objectUrl: string)
      requires Valid() && isModalOpen
      modifies this
      ensures Valid() && isModalOpen
      ensures formData == old(formData).(file := Some(file), previewUrl := objectUrl)
      ensures items == old(items) && editingItem == old(editingItem)
    {
      formData := formData.(file := Some(file), previewUrl := objectUrl);
    }

    /** Submitting the form. `now` stands for `Date.now()` and `fileDataUrl` for
        the chosen file read as a data URL. An incomplete form changes nothing;
        otherwise the edited item is updated in place, or a new item goes to
        the front, and the modal closes. */
    method HandleSubmit(now: nat, fileDataUrl: string)
      requires Valid()
      modifies this
      ensures Valid()
      ensures !CanSubmit(old(formData)) ==>
                items == old(items) && formData == old(formData) &&
                editingItem == old(editingItem) && isModalOpen == old(isModalOpen)
      ensures CanSubmit(old(formData)) && old(editingItem).Some? ==>
                items == UpdateItem(old(items), old(editingItem).value.id, old(formData).title,
                                    NormalizePrice(old(formData).price), ImageSource(old(formData), fileDataUrl))
      ensures CanSubmit(old(formData)) && old(editingItem).None? ==>
                items == [ClothingItem(CustomId(now), old(formData).title, ImageSource(old(formData), fileDataUrl),
                                       NormalizePrice(old(formData).price))] + old(items)
      ensures CanSubmit(old(formData)) ==> !isModalOpen && formData == EmptyForm && editingItem.None?
    {
      if !CanSubmit(formData) {
        return;
      }
      var imageSrc := formData.previewUrl;
      if formData.file.Some? {
        imageSrc := fileDataUrl;
      }
      var price := NormalizePrice(formData.price);
      match editingItem {
        case Some(editing) =>
          items := UpdateItem(items, editing.id, formData.title, price, imageSrc);
        case None =>
          var newItem := ClothingItem(CustomId(now), formData.title, imageSrc, price);
          items := [newItem] + items;
      }
      CloseModal();
    }
  }
}
