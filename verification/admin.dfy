/** The admin panel: discontinuing products, and the "new creation" form
    with its draft, its note list and its launch guard. */
module Admin {
  import opened Types
  import opened Seqs
  import opened App

  /** The value of the price field: a whole number of dollars, or NaN when
      the field holds something that is not a number. */
  datatype PriceInput = Dollars(amount: int) | NaN

  /** The truthiness test of the launch guard: 0 and NaN are falsy, every
      other number, negative ones included, is truthy. */
  predicate PriceTruthy(x: PriceInput): (b: bool)
    ensures x == NaN || x == Dollars(0) ==> !b
    ensures x.Dollars? && x.amount < 0 ==> b
    ensures b ==> x.Dollars? && x.amount != 0
  {
    x.Dollars? && x.amount != 0
  }

  /** The draft behind the form. Text fields that are unset and text fields
      that are empty are both falsy and are both represented by "". The note
      list may be unset. */
  datatype Draft = Draft(
    name: string,
    brand: string,
    price: PriceInput,
    description: string,
    notes: Option<seq<string>>,
    category: Category,
    image: string)

  const HouseBrand: string := "Noir Essence"
  const PlaceholderImage: string := "https://picsum.photos/400/600"

  /** The draft the form starts from and is reset to after a launch. */
  const InitialDraft: Draft := Draft("", HouseBrand, Dollars(0), "", Some([]), Unisex, PlaceholderImage)

  /** `s || fallback` on a string. */
  function OrDefault(s: string, fallback: string): (r: string)
    ensures s != "" ==> r == s
    ensures s == "" ==> r == fallback
  {
    if s != "" then s else fallback
  }

  /** The launch guard: a non-empty name and a truthy price. Negative prices
      pass it. */
  predicate CanLaunch(d: Draft): (ok: bool)
    ensures d.name == "" ==> !ok
    ensures d.price == NaN || d.price == Dollars(0) ==> !ok
    ensures ok ==> d.price.Dollars? && d.price.amount != 0
  {
    d.name != "" && PriceTruthy(d.price)
  }

  /** The product a valid draft launches as, with `id` supplied by the caller. */
  function NewProduct(d: Draft, id: string): (p: Product)
    requires CanLaunch(d)
    ensures p.id == id && p.isNew
    ensures p.name == d.name && p.name != ""
    ensures p.price == d.price.amount && p.price != 0
    ensures p.brand == OrDefault(d.brand, HouseBrand) && p.brand != ""
    ensures p.image == OrDefault(d.image, PlaceholderImage) && p.image != ""
    ensures p.description == d.description
    ensures p.notes == d.notes.GetOr([])
    ensures p.category == d.category
  {
    Product(id, d.name, OrDefault(d.brand, HouseBrand), d.price.amount, OrDefault(d.description, ""),
            d.notes.GetOr([]), OrDefault(d.image, PlaceholderImage), true, d.category)
  }

  /** Any named draft with a negative price passes the launch guard, and the
      product is launched with that negative price. */
  lemma NegativePriceIsAccepted(d: Draft, id: string)
    requires d.name != "" && d.price.Dollars? && d.price.amount < 0
    ensures CanLaunch(d) && NewProduct(d, id).price == d.price.amount
  {
  }

  /** The initial draft, which the form is also reset to after a launch,
      cannot be launched (its name is empty and its price is 0) nor sent for a
      description (no name, no notes); it carries the house brand and the
      placeholder image. */
  lemma InitialDraftIsBlank()
    ensures !CanLaunch(InitialDraft) && !CanGenerate(InitialDraft)
    ensures InitialDraft.brand == HouseBrand && InitialDraft.image == PlaceholderImage
    ensures InitialDraft.notes == Some([]) && InitialDraft.category == Unisex
  {
  }

  /** The catalog after a confirmed delete of `id`. */
  function DeleteProduct(products: seq<Product>, id: string): (r: seq<Product>)
    ensures forall p :: p in r <==> p in products && p.id != id
    ensures |r| <= |products|
  {
    Filter(products, (p: Product) => p.id != id)
  }

  /** A delete keeps the remaining products in catalog order. */
  lemma DeleteKeepsOrder(products: seq<Product>, id: string)
    ensures IsSubsequence(DeleteProduct(products, id), products)
  {
    FilterIsSubsequence(products, (p: Product) => p.id != id);
  }

  /** Deleting an id no product has changes nothing. */
  lemma DeleteAbsentIsNoOp(products: seq<Product>, id: string)
    requires forall p :: p in products ==> p.id != id
    ensures DeleteProduct(products, id) == products
  {
    FilterKeepsAll(products, (p: Product) => p.id != id);
  }

  /** The id of a product. */
  function ProductId(p: Product): string {
    p.id
  }

  /** No two products share an id. */
  ghost predicate UniqueIds(products: seq<Product>) {
    KeysDistinct(products, ProductId)
  }

  /** Launching with an id no product has keeps the ids unique. */
  lemma LaunchKeepsIdsUnique(products: seq<Product>, d: Draft, id: string)
    requires UniqueIds(products) && CanLaunch(d)
    requires forall p :: p in products ==> p.id != id
    ensures UniqueIds(products + [NewProduct(d, id)])
  {
    var r := products + [NewProduct(d, id)];
    forall i, j | 0 <= i < j < |r| ensures r[i].id != r[j].id {
      if j == |products| {
        assert r[i] == products[i];
        assert products[i] in products;
      }
    }
  }

  /** A delete keeps the ids unique. */
  lemma DeleteKeepsIdsUnique(products: seq<Product>, id: string)
    requires UniqueIds(products)
    ensures UniqueIds(DeleteProduct(products, id))
  {
    FilterKeepsKeysDistinct(products, (p: Product) => p.id != id, ProductId);
  }

  /** The note list after "add note" with the typed `input`: a non-empty
      input goes at the end (starting a list if there was none); an empty
      one changes nothing. No trimming, no deduplication. */
  function AddNote(notes: Option<seq<string>>, input: string): (r: Option<seq<string>>)
    ensures input == "" ==> r == notes
    ensures input != "" ==> r.Some? && r.value == notes.GetOr([]) + [input]
  {
    if input != "" && notes.Some? then Some(notes.value + [input])
    else if input != "" then Some([input])
    else notes
  }

  /** The note list after removing the note at `idx`; an unset list stays unset. */
  function RemoveNote(notes: Option<seq<string>>, idx: int): (r: Option<seq<string>>)
    ensures notes.None? ==> r.None?
    ensures notes.Some? && 0 <= idx < |notes.value| ==>
      r == Some(notes.value[..idx] + notes.value[idx + 1..]) && |r.value| == |notes.value| - 1
    ensures notes.Some? && !(0 <= idx < |notes.value|) ==> r == notes
  {
    match notes
    case None => None
    case Some(ns) => Some(DropIndex(ns, idx))
  }

  /** Removing the note just added restores the list it was added to. */
  lemma RemoveUndoesAddNote(notes: seq<string>, input: string)
    requires input != ""
    ensures RemoveNote(AddNote(Some(notes), input), |notes|) == Some(notes)
  {
    var added := notes + [input];
    assert added[..|notes|] == notes && added[|notes| + 1..] == [];
    assert added[..|notes|] + added[|notes| + 1..] == notes;
  }

  /** The precondition of drafting a description: a name and at least one note. */
  predicate CanGenerate(d: Draft): (ok: bool)
    ensures !ok <==> d.name == "" || d.notes.None? || |d.notes.value| == 0
  {
    d.name != "" && d.notes.Some? && |d.notes.value| > 0
  }

  /** The admin panel's own state, over the application state whose catalog
      it edits. */
  class AdminPanel {
    const app: AppState
    var isAdding: bool
    var draft: Draft
    var noteInput: string

    constructor (app: AppState)
      ensures this.app == app
      ensures !isAdding && draft == InitialDraft && noteInput == ""
    {
      this.app := app;
      isAdding := false;
      draft := InitialDraft;
      noteInput := "";
    }

    /** The "Add Perfume" / "Cancel" button. */
    method ToggleForm()
      modifies this
      ensures isAdding == !old(isAdding)
      ensures draft == old(draft) && noteInput == old(noteInput)
    {
      isAdding := !isAdding;
    }

    /** Typing into the name field. */
    method EditName(v: string)
      modifies this
      ensures draft == old(draft).(name := v)
      ensures isAdding == old(isAdding) && noteInput == old(noteInput)
    {
      draft := draft.(name := v);
    }

    /** Typing into the price field; `v` is the field's text read as a
        number (NaN when it is not one). */
    method EditPrice(v: PriceInput)
      modifies this
      ensures draft == old(draft).(price := v)
      ensures isAdding == old(isAdding) && noteInput == old(noteInput)
    {
      draft := draft.(price := v);
    }

    /** Typing into the description field. */
    method EditDescription(v: string)
      modifies this
      ensures draft == old(draft).(description := v)
      ensures isAdding == old(isAdding) && noteInput == old(noteInput)
    {
      draft := draft.(description := v);
    }

    /** Choosing a category. */
    method EditCategory(v: Category)
      modifies this
      ensures draft == old(draft).(category := v)
      ensures isAdding == old(isAdding) && noteInput == old(noteInput)
    {
      draft := draft.(category := v);
    }

    /** Typing into the image field. */
    method EditImage(v: string)
      modifies this
      ensures draft == old(draft).(image := v)
      ensures isAdding == old(isAdding) && noteInput == old(noteInput)
    {
      draft := draft.(image := v);
    }

    /** Typing into the note field. */
    method EditNoteInput(s: string)
      modifies this
      ensures noteInput == s
      ensures isAdding == old(isAdding) && draft == old(draft)
    {
      noteInput := s;
    }

    /** The trash button: with confirmation, every product with `id` is
        removed; refused, nothing changes. */
    method HandleDelete(id: string, confirmed: bool)
      modifies app
      ensures app.products == if confirmed then DeleteProduct(old(app.products), id) else old(app.products)
      ensures forall p :: confirmed && p in app.products ==> p.id != id
      ensures app.cart == old(app.cart) && app.isCartOpen == old(app.isCartOpen)
    {
      if confirmed {
        app.products := DeleteProduct(app.products, id);
      }
    }

    /** "Add" beside the note field: append a non-empty input to the draft's
        notes and clear the input; an empty input changes nothing. */
    method HandleAddNote()
      modifies this
      ensures draft == old(draft).(notes := AddNote(old(draft).notes, old(noteInput)))
      ensures noteInput == ""
      ensures isAdding == old(isAdding)
    {
      if noteInput != "" {
        draft := draft.(notes := AddNote(draft.notes, noteInput));
        noteInput := "";
      }
    }

    /** The cross on note `idx`: that note leaves the draft. */
    method HandleRemoveNote(idx: int)
      modifies this
      ensures draft == old(draft).(notes := RemoveNote(old(draft).notes, idx))
      ensures isAdding == old(isAdding) && noteInput == old(noteInput)
    {
      draft := draft.(notes := RemoveNote(draft.notes, idx));
    }

    /** "Generate with AI": refused (the alert) without a name or a note;
        otherwise the text the generative service returned, `generated`,
        becomes the draft's description. */
    method HandleGenerateDescription(generated: string) returns (refused: bool)
      modifies this
      ensures refused <==> !CanGenerate(old(draft))
      ensures draft == if refused then old(draft) else old(draft).(description := generated)
      ensures isAdding == old(isAdding) && noteInput == old(noteInput)
    {
      refused := !CanGenerate(draft);
      if !refused {
        draft := draft.(description := generated);
      }
    }

    /** "Launch Product": a draft that passes the guard is appended to the
        catalog as product `newId`, the form closes and the draft resets; any
        other draft changes nothing. The note input is kept either way. */
    method HandleSubmit(newId: string)
      modifies this, app
      ensures CanLaunch(old(draft)) ==>
        && app.products == old(app.products) + [NewProduct(old(draft), newId)]
        && !isAdding && draft == InitialDraft
      ensures !CanLaunch(old(draft)) ==>
        app.products == old(app.products) && isAdding == old(isAdding) && draft == old(draft)
      ensures |app.products| == |old(app.products)| + (if CanLaunch(old(draft)) then 1 else 0)
      ensures noteInput == old(noteInput)
      ensures app.cart == old(app.cart) && app.isCartOpen == old(app.isCartOpen)
    {
      if CanLaunch(draft) {
        app.products := app.products + [NewProduct(draft, newId)];
        isAdding := false;
        draft := InitialDraft;
      }
    }
  }
}
