/**
 * The product catalogue page: the cached product list with its filter form, price sort,
 * pagination with a five-number window, row selection, and the add / edit / delete
 * handlers that update the cache.
 */
module ProductManagement {
  import opened Wrappers
  import opened Text
  import opened Numbers
  import opened Collections
  import opened Paging
  import opened Effects
  import UniqueCode

  // ---------------------------------------------------------------- data

  /** The descriptive fields, shown and edited but used by no logic; `reviewDes2` None is undefined. */
  datatype Details = Details(
    writer: string, rating: string, synopsis: string, authorName: string, authorDes: string,
    reviewerName1: string, reviewerName2: string, reviewTitle1: string, reviewTitle2: string,
    reviewDes1: string, reviewDes2: Option<string>)

  /** A product as the server sends it; a number field is None when missing or not numeric. */
  datatype ServerProduct = ServerProduct(
    serverId: string, code: string, title: string, cover: string, price: Option<real>,
    details: Details, react1: Option<real>, react2: Option<real>, created: Option<int>)

  /**
   * A product in the page's cache: `id` is the local row number, `serverId` the database
   * key, `code` the six-digit `product_id`. A reaction count is None when it is NaN.
   */
  datatype Product = Product(
    id: int, serverId: Option<string>, code: string, title: string, cover: string, price: real,
    details: Details, react1: Option<real>, react2: Option<real>)

  /** The add / edit form: every input as the text typed into it. */
  datatype ProductForm = ProductForm(
    title: string, writer: string, rating: string, price: string, synopsis: string,
    authorName: string, authorDes: string, reviewerName1: string, reviewerName2: string,
    reviewTitle1: string, reviewTitle2: string, reviewDes1: string, reviewDes2: string,
    react1: string, react2: string)

  /** The cleared form (the reaction counts start at 0). */
  const EmptyForm := ProductForm("", "", "", "", "", "", "", "", "", "", "", "", "", "0", "0")

  /** The edit dialog: the product's keys and cover, and its fields as text. */
  datatype EditForm = EditForm(id: int, serverId: Option<string>, cover: string, fields: ProductForm)

  /** The filter form; `sort` is "none", "price-asc" or "price-desc". */
  datatype Filters = Filters(id: string, title: string, minPrice: string, maxPrice: string, sort: string)

  const NoFilters := Filters("", "", "", "", "none")

  /** What the POST of a new product gives back: a rejection, or the saved record's `_id` (possibly absent). */
  datatype Saved = SaveFailed | SavedAs(serverId: Option<string>)

  // ---------------------------------------------------------------- load

  /**
   * `dateB - dateA <= 0`: newer products first. An unreadable creation time makes the
   * difference NaN, which the sort reads as a tie.
   */
  function NewerFirst(a: ServerProduct, b: ServerProduct): bool {
    a.created.None? || b.created.None? || a.created.value >= b.created.value
  }

  lemma NewerFirstTotal()
    ensures Total(NewerFirst)
  {
  }

  /** The row a server product becomes at position `i`: numbered from 1, numbers defaulting to 0. */
  function FromServer(p: ServerProduct, i: nat): Product {
    Product(i + 1, Some(p.serverId), p.code, p.title, p.cover, p.price.GetOr(0.0), p.details,
            Some(p.react1.GetOr(0.0)), Some(p.react2.GetOr(0.0)))
  }

  /** The cache built from a fetch: newest first, then numbered. */
  function Loaded(data: seq<ServerProduct>): (r: seq<Product>)
    ensures |r| == |data|
    ensures forall i :: 0 <= i < |r| ==> r[i] == FromServer(SortWith(data, NewerFirst)[i], i)
  {
    var sorted := SortWith(data, NewerFirst);
    seq(|sorted|, i requires 0 <= i < |sorted| => FromServer(sorted[i], i))
  }

  /** Loaded rows are numbered 1..n in order, newest first, with the fetched products and no others. */
  lemma LoadedRows(data: seq<ServerProduct>)
    ensures forall i :: 0 <= i < |Loaded(data)| ==> Loaded(data)[i].id == i + 1
    ensures forall i :: 0 <= i < |data| ==> Loaded(data)[i] == FromServer(SortWith(data, NewerFirst)[i], i)
    ensures forall i :: 0 <= i < |Loaded(data)| - 1 ==>
      NewerFirst(SortWith(data, NewerFirst)[i], SortWith(data, NewerFirst)[i + 1])
    ensures multiset(SortWith(data, NewerFirst)) == multiset(data)
  {
    NewerFirstTotal();
    SortWithSorted(data, NewerFirst);
  }

  // ---------------------------------------------------------------- filter, sort, paginate

  predicate MatchesId(p: Product, f: Filters) {
    f.id == "" || Contains(p.code, f.id)
  }

  predicate MatchesTitle(p: Product, f: Filters) {
    f.title == "" || ContainsCI(p.title, f.title)
  }

  /** `minPrice ? price >= parseFloat(minPrice) : true`; a comparison with NaN is false. */
  predicate AboveMin(p: Product, f: Filters) {
    f.minPrice == "" || (ParseFloat(f.minPrice).Some? && p.price >= ParseFloat(f.minPrice).value)
  }

  predicate BelowMax(p: Product, f: Filters) {
    f.maxPrice == "" || (ParseFloat(f.maxPrice).Some? && p.price <= ParseFloat(f.maxPrice).value)
  }

  predicate Matches(p: Product, f: Filters) {
    MatchesId(p, f) && MatchesTitle(p, f) && AboveMin(p, f) && BelowMax(p, f)
  }

  /** The comparator for the chosen sort, as "`cmp(a, b) <= 0`"; "none" returns 0 for every pair. */
  function PriceOrder(sort: string): (T: (Product, Product) -> bool) {
    if sort == "price-asc" then (a: Product, b: Product) => a.price <= b.price
    else if sort == "price-desc" then (a: Product, b: Product) => b.price <= a.price
    else (a: Product, b: Product) => true
  }

  lemma PriceOrderTotal(sort: string)
    ensures Total(PriceOrder(sort))
  {
  }

  /** `filteredProducts`: the filter, then the sort. */
  function Visible(products: seq<Product>, f: Filters): seq<Product> {
    SortWith(Filter(products, p => Matches(p, f)), PriceOrder(f.sort))
  }

  /** A product is listed exactly when it is cached and every filter that is filled in matches it. */
  lemma VisibleMembers(products: seq<Product>, f: Filters)
    ensures forall p :: p in Visible(products, f) <==> p in products && Matches(p, f)
    ensures multiset(Visible(products, f)) <= multiset(products)
  {
    var filtered := Filter(products, p => Matches(p, f));
    assert forall p :: p in Visible(products, f) <==> p in multiset(filtered);
  }

  /** "price-asc" lists prices nondecreasing, "price-desc" nonincreasing; "none" keeps the filtered order. */
  lemma VisibleOrder(products: seq<Product>, f: Filters)
    ensures f.sort == "price-asc" ==>
      forall i :: 0 <= i < |Visible(products, f)| - 1 ==> Visible(products, f)[i].price <= Visible(products, f)[i + 1].price
    ensures f.sort == "price-desc" ==>
      forall i :: 0 <= i < |Visible(products, f)| - 1 ==> Visible(products, f)[i].price >= Visible(products, f)[i + 1].price
    ensures f.sort != "price-asc" && f.sort != "price-desc" ==>
      Visible(products, f) == Filter(products, p => Matches(p, f))
  {
    var filtered := Filter(products, p => Matches(p, f));
    PriceOrderTotal(f.sort);
    SortWithSorted(filtered, PriceOrder(f.sort));
    if f.sort != "price-asc" && f.sort != "price-desc" {
      SortWithOfSorted(filtered, PriceOrder(f.sort));
    }
  }

  /** With every filter empty the whole cache is listed, in cache order. */
  lemma NoFiltersListAll(products: seq<Product>)
    ensures Visible(products, NoFilters) == products
  {
    FilterAllPass(products, p => Matches(p, NoFilters));
    SortWithOfSorted(products, PriceOrder("none"));
  }

  /** A minimum or maximum price that is not a number hides every product. */
  lemma UnreadableBoundHidesAll(products: seq<Product>, f: Filters)
    requires (f.minPrice != "" && ParseFloat(f.minPrice).None?) || (f.maxPrice != "" && ParseFloat(f.maxPrice).None?)
    ensures Visible(products, f) == []
  {
    VisibleMembers(products, f);
  }

  /** `Math.max(1, Math.ceil(n / size))`. */
  function TotalPages(n: nat, size: nat): (r: int)
    requires size > 0
    ensures r >= 1
    ensures n == 0 ==> r == 1
    ensures n > 0 ==> (r - 1) * size < n <= r * size
  {
    Max(1, CeilDiv(n, size))
  }

  /** The page holds at most `size` listed products, the ones after the earlier pages; all pages together are the list. */
  lemma VisiblePages(products: seq<Product>, f: Filters, page: int, size: nat)
    requires size > 0 && page >= 1
    ensures WellPaged(Visible(products, f), page, size)
  {
    Paged(Visible(products, f), page, size);
  }

  // ---------------------------------------------------------------- page numbers

  /** First and last number of the five-number window, as `renderPagination` computes them. */
  function WindowBounds(current: int, total: int): (int, int) {
    var start := Max(current - 2, 1);
    var end := Min(start + 4, total);
    (if end - start < 4 then Max(end - 4, 1) else start, end)
  }

  /** The window is a run of min(5, total) consecutive pages inside 1..total around the current one. */
  lemma WindowShape(current: int, total: int)
    requires 1 <= current <= total
    ensures 1 <= WindowBounds(current, total).0 <= current <= WindowBounds(current, total).1 <= total
    ensures WindowBounds(current, total).1 - WindowBounds(current, total).0 + 1 == Min(5, total)
  {
  }

  /** `renderPagination`: push the page numbers from `start` to `end`. */
  method RenderPagination(current: int, total: int) returns (pages: seq<int>)
    ensures |pages| == Max(WindowBounds(current, total).1 - WindowBounds(current, total).0 + 1, 0)
    ensures forall i :: 0 <= i < |pages| ==> pages[i] == WindowBounds(current, total).0 + i
  {
    var start := Max(current - 2, 1);
    var end := Min(start + 4, total);
    if end - start < 4 {
      start := Max(end - 4, 1);
    }
    pages := [];
    var i := start;
    while i <= end
      invariant start <= i <= Max(end + 1, start)
      invariant |pages| == i - start
      invariant forall k :: 0 <= k < |pages| ==> pages[k] == start + k
    {
      pages := pages + [i];
      i := i + 1;
    }
  }

  /**
   * The go-to box: `Number(v)`, with 0 or NaN read as 1, clamped into 1..total.
   * A fractional entry is rounded down to a whole page.
   */
  function GoToPage(input: string, total: int): (r: int)
    requires total >= 1
    ensures 1 <= r <= total
    ensures ToNumber(input).Some? && ToNumber(input).value >= 1.0 && ToNumber(input).value.Floor <= total ==>
      r == ToNumber(input).value.Floor
    ensures (ToNumber(input).None? || ToNumber(input).value == 0.0) ==> r == 1
    ensures ToNumber(input).Some? && ToNumber(input).value < 1.0 ==> r == 1
    ensures ToNumber(input).Some? && ToNumber(input).value >= total as real ==> r == total
  {
    var v := match ToNumber(input) case Some(x) => if x == 0.0 then 1.0 else x case None => 1.0;
    Min(Max(1, v.Floor), total)
  }

  // ---------------------------------------------------------------- selection

  /** `toggleSelectAll`: clear the selection when the whole page is selected, otherwise select exactly the page. */
  function SelectAll(pageIds: seq<int>, selected: seq<int>): (r: seq<int>)
    ensures (forall i :: 0 <= i < |pageIds| ==> pageIds[i] in selected) ==> r == []
    ensures (exists i :: 0 <= i < |pageIds| && pageIds[i] !in selected) ==> r == pageIds
  {
    if forall i :: 0 <= i < |pageIds| ==> pageIds[i] in selected then [] else pageIds
  }

  /** The header check box: ticked when the page is not empty and all of it is selected. */
  predicate AllTicked(pageIds: seq<int>, selected: seq<int>) {
    |pageIds| > 0 && forall i :: 0 <= i < |pageIds| ==> pageIds[i] in selected
  }

  /** On a non-empty page, pressing the header check box flips it. */
  lemma SelectAllFlips(pageIds: seq<int>, selected: seq<int>)
    requires |pageIds| > 0
    ensures AllTicked(pageIds, SelectAll(pageIds, selected)) == !AllTicked(pageIds, selected)
  {
    if AllTicked(pageIds, selected) {
      assert pageIds[0] !in SelectAll(pageIds, selected);
    }
  }

  // ---------------------------------------------------------------- add

  /** The first failing check of the add form, in the order the handler makes them. */
  function AddCheck(form: ProductForm, hasImage: bool): Option<Notice> {
    if IsBlank(form.title) then Some(Notice("warning", "Missing", "Title is required"))
    else if form.price == "" || ParseFloat(form.price).None? then Some(Notice("error", "Invalid", "Enter a valid price"))
    else if !hasImage then Some(Notice("warning", "Missing", "Product cover image required"))
    else None
  }

  /** An add goes ahead exactly when the title has a visible character, the price reads as a number and an image is chosen. */
  lemma AddCheckPasses(form: ProductForm, hasImage: bool)
    ensures AddCheck(form, hasImage).None? <==>
      (exists i :: 0 <= i < |form.title| && !IsSpace(form.title[i])) && ParseFloat(form.price).Some? && hasImage
  {
    assert IsBlank(form.title) <==> forall i :: 0 <= i < |form.title| ==> IsSpace(form.title[i]) by {
      BlankIffAllSpace(form.title);
    }
    assert form.price == "" ==> ParseFloat(form.price).None? by {
      EmptyIsNaN();
    }
  }

  lemma EmptyIsNaN()
    ensures ParseFloat("") == None
  {
    assert TrimStart("") == "";
  }

  /** `Math.max(...ids)`: the largest row number of a non-empty cache. */
  function MaxId(products: seq<Product>): (r: int)
    requires products != []
    ensures forall i :: 0 <= i < |products| ==> products[i].id <= r
    ensures exists i :: 0 <= i < |products| && products[i].id == r
  {
    if |products| == 1 then products[0].id
    else
      var rest := MaxId(products[1..]);
      assert forall i :: 1 <= i < |products| ==> products[i] == products[1..][i - 1];
      Max(products[0].id, rest)
  }

  /** `prev.length ? Math.max(...prev.map(p => p.id)) + 1 : 1`. */
  function NextId(products: seq<Product>): (r: int)
    ensures forall i :: 0 <= i < |products| ==> r > products[i].id
    ensures products == [] ==> r == 1
    ensures products != [] ==> r == MaxId(products) + 1
    ensures products != [] ==> exists i :: 0 <= i < |products| && r == products[i].id + 1
  {
    if products == [] then 1 else MaxId(products) + 1
  }

  /** The number after the largest one, whatever its sign: a cache holding only row -3 gives -2. */
  lemma NextIdFollowsLargest(a: Product, b: Product)
    requires a.id == 1 && b.id == 5
    ensures NextId([a, b]) == 6
    ensures NextId([a.(id := -3)]) == -2
  {
    assert [a, b][1..] == [b];
  }

  /** The record the handler sends, as written: `reviewDes2` is read from a form key that does not exist. */
  function NewItemAsWritten(form: ProductForm, cover: string, code: string): Product {
    Product(0, None, code, form.title, cover, ParseFloat(form.price).GetOr(0.0),
            Details(form.writer, form.rating, form.synopsis, form.authorName, form.authorDes,
                    form.reviewerName1, form.reviewerName2, form.reviewTitle1, form.reviewTitle2,
                    form.reviewDes1, None),
            ToNumber(form.react1), ToNumber(form.react2))
  }

  /** The second review description typed into the form never reaches the new product. */
  lemma SecondReviewLost(form: ProductForm, cover: string, code: string)
    ensures NewItemAsWritten(form, cover, code).details.reviewDes2 == None
    ensures NewItemAsWritten(form, cover, code).details.reviewDes2 != Some(form.reviewDes2)
    ensures NewItemAsWritten(form, cover, code)
      == NewItem(form, cover, code).(details := NewItem(form, cover, code).details.(reviewDes2 := None))
  {
  }

  /** The record made of every field of the form: what an edit sends, and what an add was meant to send. */
  function NewItem(form: ProductForm, cover: string, code: string): Product {
    Product(0, None, code, form.title, cover, ParseFloat(form.price).GetOr(0.0),
            Details(form.writer, form.rating, form.synopsis, form.authorName, form.authorDes,
                    form.reviewerName1, form.reviewerName2, form.reviewTitle1, form.reviewTitle2,
                    form.reviewDes1, Some(form.reviewDes2)),
            ToNumber(form.react1), ToNumber(form.react2))
  }

  /** The new item keeps each text the operator typed, the uploaded cover and the fresh code. */
  lemma NewItemKeepsForm(form: ProductForm, cover: string, code: string)
    requires ParseFloat(form.price).Some?
    ensures NewItem(form, cover, code).title == form.title
    ensures NewItem(form, cover, code).price == ParseFloat(form.price).value
    ensures NewItem(form, cover, code).details.reviewDes1 == form.reviewDes1
    ensures NewItem(form, cover, code).details.reviewDes2 == Some(form.reviewDes2)
    ensures NewItem(form, cover, code).cover == cover && NewItem(form, cover, code).code == code
  {
  }

  /** The cache after an add: the new product, numbered above every cached one, in front. */
  function Prepended(products: seq<Product>, item: Product, serverId: Option<string>): (r: seq<Product>)
    ensures |r| == |products| + 1 && r[1..] == products
    ensures forall i :: 0 <= i < |products| ==> r[0].id != products[i].id
    ensures r[0] == item.(id := NextId(products), serverId := serverId)
  {
    [item.(id := NextId(products), serverId := serverId)] + products
  }

  /** No two cached products share a row number. */
  predicate IdsDistinct(products: seq<Product>) {
    forall i, j :: 0 <= i < j < |products| ==> products[i].id != products[j].id
  }

  /** A fresh load numbers its rows 1..n, so no two share a number. */
  lemma LoadedIdsDistinct(data: seq<ServerProduct>)
    ensures IdsDistinct(Loaded(data))
  {
    LoadedRows(data);
  }

  /** Products with distinct ids keep distinct ids after an add. */
  lemma PrependedKeepsIdsDistinct(products: seq<Product>, item: Product, serverId: Option<string>)
    requires IdsDistinct(products)
    ensures IdsDistinct(Prepended(products, item, serverId))
  {
    var r := Prepended(products, item, serverId);
    forall i, j | 0 <= i < j < |r| ensures r[i].id != r[j].id {
      if i > 0 {
        assert r[i] == products[i - 1] && r[j] == products[j - 1];
      }
    }
  }

  // ---------------------------------------------------------------- edit and delete

  /** The first failing check of the edit form. */
  function EditCheck(form: ProductForm): Option<Notice> {
    if IsBlank(form.title) then Some(Notice("warning", "Missing", "Title is required"))
    else if form.price == "" || ParseFloat(form.price).None? then Some(Notice("error", "Invalid", "Enter a valid price"))
    else None
  }

  /**
   * `startEdit`: the edit form holds the product's fields, with the text `String` makes of
   * its price and reaction counts (`priceText`, `react1Text`, `react2Text`); a missing second
   * review description shows as "".
   */
  function EditFormOf(p: Product, priceText: string, react1Text: string, react2Text: string): (e: EditForm)
    ensures e.id == p.id && e.serverId == p.serverId && e.cover == p.cover
    ensures e.fields.title == p.title && e.fields.price == priceText
    ensures e.fields.react1 == react1Text && e.fields.react2 == react2Text
  {
    var d := p.details;
    EditForm(p.id, p.serverId, p.cover,
             ProductForm(p.title, d.writer, d.rating, priceText, d.synopsis, d.authorName, d.authorDes,
                         d.reviewerName1, d.reviewerName2, d.reviewTitle1, d.reviewTitle2, d.reviewDes1,
                         d.reviewDes2.GetOr(""), react1Text, react2Text))
  }

  /**
   * Saving an edit form left as `startEdit` filled it, keeping the cover, gives back the row it
   * was made from, when the number texts read back as the product's numbers.
   */
  lemma UnchangedEditKeepsRow(p: Product, priceText: string, react1Text: string, react2Text: string)
    requires ParseFloat(priceText) == Some(p.price)
    requires ToNumber(react1Text) == p.react1 && ToNumber(react2Text) == p.react2
    requires p.details.reviewDes2.Some?
    ensures Merged(p, EditFormOf(p, priceText, react1Text, react2Text).fields, p.cover) == p
  {
    var m := Merged(p, EditFormOf(p, priceText, react1Text, react2Text).fields, p.cover);
    assert m.details == p.details;
  }

  /** `{...p, ...updated}`: the edited fields replace the old ones; id, server key and code stay. */
  function Merged(p: Product, form: ProductForm, cover: string): (r: Product)
    ensures r.id == p.id && r.serverId == p.serverId && r.code == p.code
    ensures r.title == form.title && r.cover == cover
    ensures ParseFloat(form.price).Some? ==> r.price == ParseFloat(form.price).value
    ensures r.details == Details(form.writer, form.rating, form.synopsis, form.authorName, form.authorDes,
                                 form.reviewerName1, form.reviewerName2, form.reviewTitle1, form.reviewTitle2,
                                 form.reviewDes1, Some(form.reviewDes2))
    ensures r.react1 == ToNumber(form.react1) && r.react2 == ToNumber(form.react2)
  {
    var item := NewItem(form, cover, p.code);
    item.(id := p.id, serverId := p.serverId)
  }

  /** `products.map(p => p.id === id ? {...p, ...updated} : p)`. */
  function Edited(products: seq<Product>, id: int, form: ProductForm, cover: string): (r: seq<Product>)
    ensures |r| == |products|
    ensures forall i :: 0 <= i < |products| && products[i].id != id ==> r[i] == products[i]
    ensures forall i :: 0 <= i < |products| && products[i].id == id ==> r[i] == Merged(products[i], form, cover)
  {
    Map(products, (p: Product) => if p.id == id then Merged(p, form, cover) else p)
  }

  /** `products.filter(p => p.id !== id)`. */
  function Deleted(products: seq<Product>, id: int): (r: seq<Product>)
    ensures forall i :: 0 <= i < |r| ==> r[i].id != id && r[i] in products
    ensures forall i :: 0 <= i < |products| && products[i].id != id ==> products[i] in r
  {
    Filter(products, (p: Product) => p.id != id)
  }

  /** Removing products keeps the others' row numbers distinct. */
  lemma FilterKeepsIdsDistinct(products: seq<Product>, keep: Product -> bool)
    requires IdsDistinct(products)
    ensures IdsDistinct(Filter(products, keep))
  {
    assert NoDuplicates(products);
    FilterNoDuplicates(products, keep);
    var r := Filter(products, keep);
    forall i, j | 0 <= i < j < |r| ensures r[i].id != r[j].id {
      var a :| 0 <= a < |products| && products[a] == r[i];
      var b :| 0 <= b < |products| && products[b] == r[j];
      assert a != b;
    }
  }

  /** A delete keeps the row numbers distinct. */
  lemma DeletedKeepsIdsDistinct(products: seq<Product>, id: int)
    requires IdsDistinct(products)
    ensures IdsDistinct(Deleted(products, id))
  {
    FilterKeepsIdsDistinct(products, (p: Product) => p.id != id);
  }

  /** An edit keeps every row number, so it keeps them distinct. */
  lemma EditedKeepsIdsDistinct(products: seq<Product>, id: int, form: ProductForm, cover: string)
    requires IdsDistinct(products)
    ensures IdsDistinct(Edited(products, id, form, cover))
  {
    var e := Edited(products, id, form, cover);
    assert forall i :: 0 <= i < |e| ==> e[i].id == products[i].id;
  }

  /** Deleting an id that is not cached changes nothing. */
  lemma DeleteAbsent(products: seq<Product>, id: int)
    requires forall i :: 0 <= i < |products| ==> products[i].id != id
    ensures Deleted(products, id) == products
  {
    FilterAllPass(products, (p: Product) => p.id != id);
  }

  /** Editing a product keeps the set of ids, so a later delete of it removes the edited row. */
  lemma EditThenDelete(products: seq<Product>, id: int, form: ProductForm, cover: string)
    ensures Deleted(Edited(products, id, form, cover), id) == Deleted(products, id)
  {
    var e := Edited(products, id, form, cover);
    EditThenDeleteRec(products, id, form, cover);
  }

  lemma {:induction false} EditThenDeleteRec(products: seq<Product>, id: int, form: ProductForm, cover: string)
    ensures Filter(Edited(products, id, form, cover), (p: Product) => p.id != id) == Filter(products, (p: Product) => p.id != id)
    decreases |products|
  {
    if products != [] {
      var e := Edited(products, id, form, cover);
      assert e[1..] == Edited(products[1..], id, form, cover);
      EditThenDeleteRec(products[1..], id, form, cover);
    }
  }

  // ---------------------------------------------------------------- the page

  class ProductPage {
    var products: seq<Product>
    var filters: Filters
    var currentPage: int
    var itemsPerPage: nat
    var selected: seq<int>
    var form: ProductForm
    var hasImage: bool
    var showAddModal: bool
    var showEditModal: bool
    /** The product being edited (`editProduct`), None before the first edit. */
    var editProduct: Option<EditForm>
    var notice: Option<Notice>

    /** A positive page size, and one row number per cached product. */
    predicate Valid()
      reads this
    {
      itemsPerPage > 0 && IdsDistinct(products)
    }

    constructor()
      ensures Valid()
      ensures products == [] && filters == NoFilters && currentPage == 1 && itemsPerPage == 25
      ensures selected == [] && form == EmptyForm && !hasImage && !showAddModal && !showEditModal && notice == None
      ensures editProduct == None
    {
      products := [];
      filters := NoFilters;
      currentPage := 1;
      itemsPerPage := 25;
      selected := [];
      form := EmptyForm;
      hasImage := false;
      showAddModal := false;
      showEditModal := false;
      editProduct := None;
      notice := None;
    }

    /** The rows of the current page. */
    function PageRows(): seq<Product>
      reads this
    {
      Page(Visible(products, filters), currentPage, itemsPerPage)
    }

    function Pages(): int
      reads this
      requires Valid()
    {
      TotalPages(|Visible(products, filters)|, itemsPerPage)
    }

    /** The initial fetch; None when the request or its JSON fails. */
    method Load(fetched: Option<seq<ServerProduct>>)
      requires Valid()
      modifies this
      ensures Valid()
      ensures fetched.Some? ==> products == Loaded(fetched.value) && notice == old(notice)
      ensures fetched.None? ==> (products == old(products)
        && notice == Some(Notice("error", "Error", "Failed to load products from server.")))
      ensures filters == old(filters) && currentPage == old(currentPage) && itemsPerPage == old(itemsPerPage)
      ensures selected == old(selected) && form == old(form) && hasImage == old(hasImage)
      ensures showAddModal == old(showAddModal) && showEditModal == old(showEditModal)
    {
      match fetched
      case Some(data) =>
        products := Loaded(data);
        LoadedIdsDistinct(data);
      case None =>
        notice := Some(Notice("error", "Error", "Failed to load products from server."));
    }

    /**
     * `addProduct`: the checks first (no request), then the image upload (`upload`, None
     * when it fails), the fetch of the existing codes (`existing`), the code draws and the
     * POST (`saved`). Only a saved product changes the cache, clears the form and image and
     * closes the dialog. When the draws run out before a fresh code appears, nothing changes.
     */
    method AddProduct(upload: Option<string>, existing: Option<seq<string>>, draws: seq<nat>, saved: Saved)
      requires Valid()
      modifies this`products, this`notice, this`form, this`hasImage, this`showAddModal
      ensures Valid()
      ensures AddCheck(old(form), old(hasImage)).Some? ==>
        (notice == AddCheck(old(form), old(hasImage)) && DialogKept())
      ensures AddCheck(old(form), old(hasImage)).None? ==> Submitted(upload, existing, draws, saved)
      ensures products != old(products) ==> products[1..] == old(products) && products[0].details.reviewDes2 == None
    {
      var check := AddCheck(form, hasImage);
      if check.Some? {
        notice := check;
      } else {
        Submit(upload, existing, draws, saved);
      }
    }

    /**
     * What the request part of an add leaves behind: an error notice when the upload, the
     * fetch of the codes or the POST fails; nothing new when no fresh code is drawn; the
     * new product in front of the cache, a success notice and a reset dialog otherwise.
     */
    twostate predicate Submitted(upload: Option<string>, existing: Option<seq<string>>, draws: seq<nat>, saved: Saved)
      reads this
    {
      if upload.None? || existing.None? then
        notice == Some(Notice("error", "Error", "Failed to add product")) && DialogKept()
      else
        match UniqueCode.FirstFresh(existing.value, draws)
        case None => notice == old(notice) && DialogKept()
        case Some(code) =>
          if saved.SaveFailed? then notice == Some(Notice("error", "Error", "Failed to add product")) && DialogKept()
          else
            products == Prepended(old(products), NewItemAsWritten(old(form), upload.value, code), saved.serverId)
            && notice == Some(Notice("success", "Success", "Product added successfully"))
            && form == EmptyForm && !hasImage && !showAddModal
    }

    /** The `try` block of `addProduct`, after the checks have passed. */
    method Submit(upload: Option<string>, existing: Option<seq<string>>, draws: seq<nat>, saved: Saved)
      requires Valid()
      modifies this`products, this`notice, this`form, this`hasImage, this`showAddModal
      ensures Valid()
      ensures Submitted(upload, existing, draws, saved)
      ensures products != old(products) ==> products[1..] == old(products) && products[0].details.reviewDes2 == None
    {
      if upload.None? || existing.None? {
        notice := Some(Notice("error", "Error", "Failed to add product"));
        return;
      }
      var code := UniqueCode.GenerateUniqueCode(existing.value, draws);
      if code.None? {
        return;
      }
      if saved.SaveFailed? {
        notice := Some(Notice("error", "Error", "Failed to add product"));
        return;
      }
      var item := NewItemAsWritten(form, upload.value, code.value);
      assert item.details.reviewDes2 == None;
      Commit(item, saved.serverId);
    }

    /** The cache and the add dialog as they were. */
    twostate predicate DialogKept()
      reads this
    {
      products == old(products) && form == old(form) && hasImage == old(hasImage) && showAddModal == old(showAddModal)
    }

    /** The end of a successful add: cache the new product, announce it and reset the dialog. */
    method Commit(item: Product, serverId: Option<string>)
      requires Valid()
      modifies this`products, this`notice, this`form, this`hasImage, this`showAddModal
      ensures Valid()
      ensures products == Prepended(old(products), item, serverId)
      ensures notice == Some(Notice("success", "Success", "Product added successfully"))
      ensures form == EmptyForm && !hasImage && !showAddModal
    {
      PrependedKeepsIdsDistinct(products, item, serverId);
      products := Prepended(products, item, serverId);
      notice := Some(Notice("success", "Success", "Product added successfully"));
      showAddModal := false;
      hasImage := false;
      form := EmptyForm;
    }

    /**
     * `submitEdit` on the product being edited (`edit`). After the checks, the cover is the uploaded one when an image was chosen
     * (`upload`, None when the upload fails) and the old one otherwise; the PATCH result is
     * not inspected, only a rejection (`Raised`) skips the cache update.
     */
    method SubmitEdit(edit: EditForm, upload: Option<string>, reply: Reply)
      requires Valid() && editProduct == Some(edit)
      modifies this`products, this`notice, this`hasImage, this`showEditModal
      ensures Valid()
      ensures EditCheck(edit.fields).Some? ==>
        (notice == EditCheck(edit.fields) && products == old(products)
         && hasImage == old(hasImage) && showEditModal == old(showEditModal))
      ensures EditCheck(edit.fields).None? && ((old(hasImage) && upload.None?) || reply.Raised?) ==>
        (notice == Some(Notice("error", "Error", "Failed to update product")) && products == old(products)
         && hasImage == old(hasImage) && showEditModal == old(showEditModal))
      ensures EditCheck(edit.fields).None? && (!old(hasImage) || upload.Some?) && reply.Answered? ==>
        var cover := if old(hasImage) then upload.value else edit.cover;
        (products == Edited(old(products), edit.id, edit.fields, cover)
         && notice == Some(Notice("success", "Success", "Product updated successfully"))
         && !hasImage && !showEditModal)
    {
      var check := EditCheck(edit.fields);
      if check.Some? {
        notice := check;
        return;
      }
      var cover := edit.cover;
      if hasImage {
        if upload.None? {
          notice := Some(Notice("error", "Error", "Failed to update product"));
          return;
        }
        cover := upload.value;
      }
      if reply.Raised? {
        notice := Some(Notice("error", "Error", "Failed to update product"));
        return;
      }
      EditedKeepsIdsDistinct(products, edit.id, edit.fields, cover);
      products := Edited(products, edit.id, edit.fields, cover);
      notice := Some(Notice("success", "Success", "Product updated successfully"));
      showEditModal := false;
      hasImage := false;
    }

    /** `executeDelete`: any answer removes the row; only a rejection keeps it. */
    method ExecuteDelete(product: Product, reply: Reply)
      requires Valid()
      modifies this
      ensures Valid()
      ensures reply.Answered? ==> (products == Deleted(old(products), product.id)
        && notice == Some(Notice("success", "Deleted!", "\"" + product.title + "\" has been removed.")))
      ensures reply.Raised? ==> (products == old(products)
        && notice == Some(Notice("error", "Error", "Failed to delete product")))
      ensures filters == old(filters) && currentPage == old(currentPage) && itemsPerPage == old(itemsPerPage)
      ensures selected == old(selected) && form == old(form) && hasImage == old(hasImage)
      ensures showAddModal == old(showAddModal) && showEditModal == old(showEditModal)
    {
      if reply.Answered? {
        DeletedKeepsIdsDistinct(products, product.id);
        products := Deleted(products, product.id);
        notice := Some(Notice("success", "Deleted!", "\"" + product.title + "\" has been removed."));
      } else {
        notice := Some(Notice("error", "Error", "Failed to delete product"));
      }
    }

    /** `toggleSelect(id)`. */
    method ToggleSelect(id: int)
      modifies this`selected
      ensures selected == Toggle(old(selected), id)
    {
      selected := Toggle(selected, id);
    }

    /** `toggleSelectAll` over the ids of the current page. */
    method ToggleSelectAll()
      modifies this`selected
      ensures selected == SelectAll(Map(PageRows(), (p: Product) => p.id), old(selected))
    {
      selected := SelectAll(Map(PageRows(), (p: Product) => p.id), selected);
    }

    /** `resetFilters`. */
    method ResetFilters()
      modifies this`filters, this`currentPage
      ensures filters == NoFilters && currentPage == 1
    {
      filters := NoFilters;
      currentPage := 1;
    }

    /** Typing in the filter inputs or choosing a sort: the list follows at once, the page stays. */
    method EditFilters(f: Filters)
      modifies this`filters
      ensures filters == f
    {
      filters := f;
    }

    /** "Add New Product". */
    method OpenAdd()
      modifies this`showAddModal
      ensures showAddModal
    {
      showAddModal := true;
    }

    /** The add dialog's close button or a click outside it; the typed form stays. */
    method CloseAdd()
      modifies this`showAddModal
      ensures !showAddModal
    {
      showAddModal := false;
    }

    /** The add dialog's `handleChange`: one input edited (the whole form is given). */
    method EditForm(f: ProductForm)
      modifies this`form
      ensures form == f
    {
      form := f;
    }

    /** `startEdit(p)`: the edit form filled from the product, the edit dialog open, no image chosen. */
    method StartEdit(p: Product, priceText: string, react1Text: string, react2Text: string)
      modifies this`editProduct, this`showEditModal, this`hasImage
      ensures editProduct == Some(EditFormOf(p, priceText, react1Text, react2Text))
      ensures showEditModal && !hasImage
    {
      editProduct := Some(EditFormOf(p, priceText, react1Text, react2Text));
      showEditModal := true;
      hasImage := false;
    }

    /** Typing in the edit dialog changes the edited fields; id, server key and cover stay. */
    method EditEditForm(fields: ProductForm)
      modifies this`editProduct
      ensures editProduct == if old(editProduct).Some? then Some(old(editProduct).value.(fields := fields)) else None
    {
      if editProduct.Some? {
        editProduct := Some(editProduct.value.(fields := fields));
      }
    }

    /** The cover file input: `chosen` is false when the file chooser is cancelled. */
    method ChooseImage(chosen: bool)
      modifies this`hasImage
      ensures hasImage == chosen
    {
      hasImage := chosen;
    }

    /** The "entries" select: one of its five sizes, back to page 1. */
    method SetItemsPerPage(n: int)
      requires Valid() && n in {5, 10, 20, 25, 50}
      modifies this`itemsPerPage, this`currentPage
      ensures Valid()
      ensures itemsPerPage == n && currentPage == 1
    {
      itemsPerPage := n;
      currentPage := 1;
    }

    /** The `<<`, `<`, `>` and `>>` buttons, and the go-to box. */
    method First()
      modifies this`currentPage
      ensures currentPage == 1
    {
      currentPage := 1;
    }

    method Prev()
      modifies this`currentPage
      ensures currentPage == PrevPage(old(currentPage))
    {
      currentPage := PrevPage(currentPage);
    }

    method Next()
      requires Valid()
      modifies this`currentPage
      ensures currentPage == NextPage(old(currentPage), Pages())
    {
      currentPage := NextPage(currentPage, Pages());
    }

    method Last()
      requires Valid()
      modifies this`currentPage
      ensures currentPage == Pages()
    {
      currentPage := Pages();
    }

    method GoTo(input: string)
      requires Valid()
      modifies this`currentPage
      ensures currentPage == GoToPage(input, Pages())
      ensures 1 <= currentPage <= Pages()
    {
      currentPage := GoToPage(input, Pages());
    }
  }
}
