/**
 * The Square catalog as the worker receives it, and the transform from
 * catalog items plus the `related_objects` of a batch-retrieve into the
 * product list the worker serves (`fetchImagesForItems`).
 *
 * The fields the code dereferences without a guard and that Square may
 * leave out are `Option`s here: when one is missing the JavaScript throws a
 * TypeError, which this model turns into a `Failure` that aborts the whole
 * request.
 */
module Catalog {
  import opened Wrappers

  const ListEndpoint: string := "catalog/list?types=ITEM"
  const BatchEndpoint: string := "catalog/batch-retrieve"
  const ImageType: string := "IMAGE"
  const PaymentLinkAttribute: string := "tmp_payment_link"
  const NoPaymentLink: string := "#"

  /** One entry of an item's `custom_attribute_values`. */
  datatype CustomAttribute = CustomAttribute(name: string, stringValue: string)

  /**
   * An item variation. `priceAmount` is `price_money.amount` in minor units,
   * and `None` when `price_money` is undefined (reading its `amount` throws).
   */
  datatype Variation = Variation(priceAmount: Option<int>)

  /**
   * An object of type ITEM from `catalog/list`. `customAttributes` lists the
   * values of `custom_attribute_values` in property iteration order; an
   * absent object iterates as empty.
   */
  datatype CatalogItem = CatalogItem(
    id: string,
    name: string,
    description: string,
    imageIds: Option<seq<string>>,
    variations: seq<Variation>,
    customAttributes: seq<CustomAttribute>)

  /** One of the `related_objects` of a batch-retrieve; `url` is `image_data.url`. */
  datatype RelatedObject = RelatedObject(id: string, objectType: string, url: string)

  datatype ListResponse = ListResponse(objects: Option<seq<CatalogItem>>)

  datatype BatchResponse = BatchResponse(relatedObjects: Option<seq<RelatedObject>>)

  /** One entry of the served product list; `price` is in major currency units. */
  datatype Product = Product(
    id: string,
    name: string,
    price: real,
    description: string,
    images: seq<string>,
    paymentUrl: string)

  /** Why a request fails. */
  datatype Error =
    | RequestFailed(endpoint: string)     // a Square response that is not OK
    | ObjectsMissing                      // `catalogData.objects` is undefined
    | RelatedObjectsMissing               // `batchData.related_objects` is undefined
    | ImageIdsMissing(itemId: string)     // `image_ids` undefined while an IMAGE is related
    | NoVariation(itemId: string)         // `variations[0]` is undefined
    | PriceMissing(itemId: string)        // `price_money` is undefined

  // ---------------------------------------------------------------------
  // Images
  // ---------------------------------------------------------------------

  /** The filter condition of the image selection. */
  predicate IsItemImage(obj: RelatedObject, imageIds: seq<string>) {
    obj.objectType == ImageType && obj.id in imageIds
  }

  /** `related.filter(IsItemImage).map(obj => obj.image_data.url)`. */
  function ImageUrls(related: seq<RelatedObject>, imageIds: seq<string>): (urls: seq<string>)
    ensures |urls| <= |related|
    ensures forall k :: 0 <= k < |urls| ==>
              exists j :: 0 <= j < |related| && IsItemImage(related[j], imageIds) && related[j].url == urls[k]
  {
    if related == [] then []
    else
      assert forall j :: 0 <= j < |related| - 1 ==> related[1..][j] == related[j + 1];
      (if IsItemImage(related[0], imageIds) then [related[0].url] else [])
      + ImageUrls(related[1..], imageIds)
  }

  /**
   * Reference definition of the selection: the positions of `related`, from
   * `from` on, that hold images of the item, in increasing order.
   */
  function SelectedFrom(related: seq<RelatedObject>, imageIds: seq<string>, from: nat): (idx: seq<nat>)
    requires from <= |related|
    ensures forall k :: 0 <= k < |idx| ==> from <= idx[k] < |related|
    ensures forall k, l :: 0 <= k < l < |idx| ==> idx[k] < idx[l]
    ensures forall j :: from <= j < |related| ==> (j in idx <==> IsItemImage(related[j], imageIds))
    decreases |related| - from
  {
    if from == |related| then []
    else (if IsItemImage(related[from], imageIds) then [from] else [])
         + SelectedFrom(related, imageIds, from + 1)
  }

  function SelectedIndices(related: seq<RelatedObject>, imageIds: seq<string>): seq<nat> {
    SelectedFrom(related, imageIds, 0)
  }

  lemma {:induction false} ImageUrlsFrom(related: seq<RelatedObject>, imageIds: seq<string>, from: nat)
    requires from <= |related|
    ensures var urls, idx := ImageUrls(related[from..], imageIds), SelectedFrom(related, imageIds, from);
      |urls| == |idx| && forall k :: 0 <= k < |idx| ==> urls[k] == related[idx[k]].url
    decreases |related| - from
  {
    if from < |related| {
      assert related[from..][1..] == related[from + 1..];
      var head := if IsItemImage(related[from], imageIds) then [related[from].url] else [];
      assert ImageUrls(related[from..], imageIds) == head + ImageUrls(related[from + 1..], imageIds);
      ImageUrlsFrom(related, imageIds, from + 1);
    }
  }

  /**
   * The images of an item are exactly the subsequence of `related` whose
   * type is IMAGE and whose id is among the item's `image_ids`, mapped to
   * their URLs, in the order of `related`.
   */
  lemma ImageUrlsSelectsInOrder(related: seq<RelatedObject>, imageIds: seq<string>)
    ensures var urls, idx := ImageUrls(related, imageIds), SelectedIndices(related, imageIds);
      && |urls| == |idx|
      && (forall k :: 0 <= k < |idx| ==> idx[k] < |related| && urls[k] == related[idx[k]].url)
      && (forall k, l :: 0 <= k < l < |idx| ==> idx[k] < idx[l])
      && (forall j :: 0 <= j < |related| ==> (j in idx <==> IsItemImage(related[j], imageIds)))
  {
    ImageUrlsFrom(related, imageIds, 0);
    assert related[0..] == related;
  }

  predicate HasImageObject(related: seq<RelatedObject>) {
    exists j :: 0 <= j < |related| && related[j].objectType == ImageType
  }

  /**
   * The image filter of one item. With `image_ids` undefined the filter
   * throws at the first IMAGE object, and returns nothing when there is none.
   */
  function ItemImages(item: CatalogItem, related: seq<RelatedObject>): (r: Result<seq<string>, Error>)
    ensures r.Failure? <==> item.imageIds.None? && HasImageObject(related)
    ensures r.Failure? ==> r.error == ImageIdsMissing(item.id)
    ensures item.imageIds.None? && r.Success? ==> r.value == []
  {
    match item.imageIds
    case Some(ids) => Success(ImageUrls(related, ids))
    case None => if HasImageObject(related) then Failure(ImageIdsMissing(item.id)) else Success([])
  }

  // ---------------------------------------------------------------------
  // Payment link
  // ---------------------------------------------------------------------

  /** `attrs[i]` is the first attribute named `tmp_payment_link`. */
  predicate IsFirstPaymentLink(attrs: seq<CustomAttribute>, i: int) {
    && 0 <= i < |attrs|
    && attrs[i].name == PaymentLinkAttribute
    && forall j :: 0 <= j < i ==> attrs[j].name != PaymentLinkAttribute
  }

  predicate HasPaymentLink(attrs: seq<CustomAttribute>) {
    exists i :: 0 <= i < |attrs| && attrs[i].name == PaymentLinkAttribute
  }

  /** The payment URL an item is served with. */
  function PaymentUrl(attrs: seq<CustomAttribute>): (url: string)
    ensures url == NoPaymentLink || exists i :: 0 <= i < |attrs| && attrs[i].name == PaymentLinkAttribute && url == attrs[i].stringValue
    ensures !HasPaymentLink(attrs) ==> url == NoPaymentLink
  {
    if attrs == [] then NoPaymentLink
    else if attrs[0].name == PaymentLinkAttribute then attrs[0].stringValue
    else PaymentUrl(attrs[1..])
  }

  /**
   * The payment URL is the `string_value` of the first attribute named
   * `tmp_payment_link`, and "#" when no attribute has that name.
   */
  lemma {:induction false} PaymentUrlIsFirstMatch(attrs: seq<CustomAttribute>, i: int)
    ensures !HasPaymentLink(attrs) ==> PaymentUrl(attrs) == NoPaymentLink
    ensures IsFirstPaymentLink(attrs, i) ==> PaymentUrl(attrs) == attrs[i].stringValue
  {
    if attrs != [] {
      if !HasPaymentLink(attrs) {
        assert !HasPaymentLink(attrs[1..]) by {
          forall j | 0 <= j < |attrs| - 1 ensures attrs[1..][j].name != PaymentLinkAttribute {
            assert attrs[1..][j] == attrs[j + 1];
          }
        }
        PaymentUrlIsFirstMatch(attrs[1..], i - 1);
      } else if IsFirstPaymentLink(attrs, i) && i > 0 {
        assert IsFirstPaymentLink(attrs[1..], i - 1);
        PaymentUrlIsFirstMatch(attrs[1..], i - 1);
      }
    }
  }

  /** The `for...in` scan with `break` over the custom attributes. */
  method ScanPaymentLink(attrs: seq<CustomAttribute>) returns (link: string)
    ensures link == PaymentUrl(attrs)
    ensures HasPaymentLink(attrs) <==> exists i :: IsFirstPaymentLink(attrs, i) && link == attrs[i].stringValue
    ensures !HasPaymentLink(attrs) ==> link == NoPaymentLink
  {
    link := NoPaymentLink;
    var i := 0;
    while i < |attrs|
      invariant 0 <= i <= |attrs|
      invariant forall j :: 0 <= j < i ==> attrs[j].name != PaymentLinkAttribute
      invariant link == NoPaymentLink
    {
      if attrs[i].name == PaymentLinkAttribute {
        link := attrs[i].stringValue;
        assert IsFirstPaymentLink(attrs, i);
        PaymentUrlIsFirstMatch(attrs, i);
        return;
      }
      i := i + 1;
    }
    PaymentUrlIsFirstMatch(attrs, 0);
  }

  // ---------------------------------------------------------------------
  // Items to products
  // ---------------------------------------------------------------------

  /**
   * The product an item is served as (the callback of `items.map`). It fails
   * exactly when the image filter throws, there is no variation, or the
   * first variation has no price, and with the error of the first of these.
   */
  function MapItem(item: CatalogItem, related: seq<RelatedObject>): (r: Result<Product, Error>)
    ensures r.Success? <==>
              ItemImages(item, related).Success? && item.variations != [] && item.variations[0].priceAmount.Some?
    ensures r.Failure? ==> r.error == (if ItemImages(item, related).Failure? then ImageIdsMissing(item.id)
                                       else if item.variations == [] then NoVariation(item.id)
                                       else PriceMissing(item.id))
  {
    match ItemImages(item, related)
    case Failure(e) => Failure(e)
    case Success(images) =>
      if item.variations == [] then Failure(NoVariation(item.id))
      else match item.variations[0].priceAmount
        case None => Failure(PriceMissing(item.id))
        case Some(amount) =>
          Success(Product(item.id, item.name, amount as real / 100.0, item.description,
                          images, PaymentUrl(item.customAttributes)))
  }

  /**
   * `items.map(MapItem)`: the first item that throws aborts the whole map.
   * The callback reads `batchData.related_objects`, so that field is only
   * needed when there is at least one item.
   */
  function MapItems(items: seq<CatalogItem>, related: Option<seq<RelatedObject>>): (r: Result<seq<Product>, Error>)
    ensures items == [] ==> r == Success([])
    ensures r.Success? ==> |r.value| == |items|
    ensures r.Success? && items != [] ==> related.Some?
    ensures r.Success? ==> forall k :: 0 <= k < |items| ==> MapItem(items[k], related.value) == Success(r.value[k])
  {
    if items == [] then Success([])
    else if related.None? then Failure(RelatedObjectsMissing)
    else match MapItem(items[0], related.value)
      case Failure(e) => Failure(e)
      case Success(p) =>
        match MapItems(items[1..], related)
        case Failure(e) => Failure(e)
        case Success(ps) =>
          assert forall k :: 0 < k < |items| ==> items[k] == items[1..][k - 1];
          Success([p] + ps)
  }

  /**
   * A mapped item keeps the item's id, name and description, its price is
   * the first variation's amount divided by 100, its images are the item's
   * selection of `related`, and its payment URL comes from the attribute scan.
   */
  lemma MapItemFields(item: CatalogItem, related: seq<RelatedObject>)
    ensures var r := MapItem(item, related);
      r.Success? ==>
        && r.value.id == item.id
        && r.value.name == item.name
        && r.value.description == item.description
        && r.value.price * 100.0 == item.variations[0].priceAmount.value as real
        && r.value.images == (if item.imageIds.Some? then ImageUrls(related, item.imageIds.value) else [])
        && r.value.paymentUrl == PaymentUrl(item.customAttributes)
  {
  }

  /**
   * The product list has the catalog's length and order; each product
   * carries its item's id, name and description and its first variation's
   * price in major units.
   */
  lemma ProductListMirrorsCatalog(items: seq<CatalogItem>, related: seq<RelatedObject>)
    ensures var r := MapItems(items, Some(related));
      r.Success? ==>
        && |r.value| == |items|
        && forall k :: 0 <= k < |items| ==>
             && r.value[k].id == items[k].id
             && r.value[k].name == items[k].name
             && r.value[k].description == items[k].description
             && items[k].variations != []
             && items[k].variations[0].priceAmount.Some?
             && r.value[k].price * 100.0 == items[k].variations[0].priceAmount.value as real
             && r.value[k].paymentUrl == PaymentUrl(items[k].customAttributes)
  {
    var r := MapItems(items, Some(related));
    if r.Success? {
      forall k | 0 <= k < |items|
        ensures && r.value[k].id == items[k].id
                && r.value[k].name == items[k].name
                && r.value[k].description == items[k].description
                && items[k].variations != []
                && items[k].variations[0].priceAmount.Some?
                && r.value[k].price * 100.0 == items[k].variations[0].priceAmount.value as real
                && r.value[k].paymentUrl == PaymentUrl(items[k].customAttributes)
      {
        MapItemFields(items[k], related);
      }
    }
  }

  /**
   * With the related objects present, the map fails exactly when some item
   * fails, and then with the error of the first item that fails.
   */
  lemma {:induction false} MapItemsFailsAtFirstError(items: seq<CatalogItem>, related: seq<RelatedObject>, i: int)
    ensures MapItems(items, Some(related)).Failure? <==>
              exists k :: 0 <= k < |items| && MapItem(items[k], related).Failure?
    ensures && 0 <= i < |items| && MapItem(items[i], related).Failure?
            && (forall k :: 0 <= k < i ==> MapItem(items[k], related).Success?)
            ==> MapItems(items, Some(related)) == Failure(MapItem(items[i], related).error)
  {
    if items != [] {
      MapItemsFailsAtFirstError(items[1..], related, i - 1);
      if MapItem(items[0], related).Success? {
        if exists k :: 0 <= k < |items| && MapItem(items[k], related).Failure? {
          var k :| 0 <= k < |items| && MapItem(items[k], related).Failure?;
          assert items[1..][k - 1] == items[k];
        }
        if 0 < i < |items| {
          assert forall k :: 0 <= k < i - 1 ==> items[1..][k] == items[k + 1];
        }
      }
    }
  }

  /**
   * An item priced 1050 minor units, with one related image and a
   * `tmp_payment_link` attribute behind another attribute, is served at
   * 10.5 with that image and that link; a related IMAGE of another item is
   * not included.
   */
  lemma ExampleItem()
    ensures var item := CatalogItem("I1", "Tea", "Green tea", Some(["P1"]), [Variation(Some(1050))],
                                    [CustomAttribute("colour", "green"), CustomAttribute(PaymentLinkAttribute, "https://pay/I1")]);
            var related := [RelatedObject("P1", ImageType, "https://img/P1"), RelatedObject("P2", ImageType, "https://img/P2")];
            MapItem(item, related) == Success(Product("I1", "Tea", 10.5, "Green tea", ["https://img/P1"], "https://pay/I1"))
  {
    var attrs := [CustomAttribute("colour", "green"), CustomAttribute(PaymentLinkAttribute, "https://pay/I1")];
    assert "colour" != PaymentLinkAttribute by { assert "colour"[0] != PaymentLinkAttribute[0]; }
    assert PaymentUrl(attrs) == PaymentUrl(attrs[1..]);
    var related := [RelatedObject("P1", ImageType, "https://img/P1"), RelatedObject("P2", ImageType, "https://img/P2")];
    assert "P2" !in ["P1"] by { assert "P2"[1] != "P1"[1]; }
    assert related[2..] == [];
    assert IsItemImage(related[0], ["P1"]);
    assert !IsItemImage(related[1], ["P1"]);
    assert ImageUrls(related, ["P1"]) == ["https://img/P1"];
  }

  /** `fetchFromSquareAPI` up to the KV write: the two Square calls and the transform. */
  function FetchProducts(list: Option<ListResponse>, batch: Option<BatchResponse>): (r: Result<seq<Product>, Error>)
    ensures list.None? ==> r == Failure(RequestFailed(ListEndpoint))
    ensures list.Some? && list.value.objects.None? ==> r == Failure(ObjectsMissing)
    ensures list.Some? && list.value.objects.Some? && batch.None? ==> r == Failure(RequestFailed(BatchEndpoint))
    ensures list.Some? && list.value.objects.Some? && batch.Some? ==>
              r == MapItems(list.value.objects.value, batch.value.relatedObjects)
    ensures r.Success? ==>
              && list.Some? && list.value.objects.Some? && batch.Some?
              && |r.value| == |list.value.objects.value|
              && forall k :: 0 <= k < |r.value| ==> r.value[k].id == list.value.objects.value[k].id
  {
    match list
    case None => Failure(RequestFailed(ListEndpoint))
    case Some(catalog) =>
      match catalog.objects
      case None => Failure(ObjectsMissing)
      case Some(items) =>
        match batch
        case None => Failure(RequestFailed(BatchEndpoint))
        case Some(b) => MapItems(items, b.relatedObjects)
  }
}
