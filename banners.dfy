/**
 * The banner service over the Banner collection, a map from ids to records
 * whose `order` is a unique index: create with the next order number,
 * update of the image and active flag, the single and batch deletes, the
 * lookup by id, and the guard of the banner image upload.
 *
 * Deleting a banner's image from Cloudinary is outside the model; so are
 * listing the collection and the Cloudinary folder listing.
 */
module Banners {
  import opened Api
  import opened Text
  import opened Zod
  import opened Store

  datatype Banner = Banner(title: string, image: string, order: int, isActive: bool)

  const NOT_FOUND_MESSAGE: string := "Banner not found"
  const DELETED_MESSAGE: string := "Banner deleted successfully"
  const IDS_MESSAGE: string := "Invalid request. 'ids' must be a non-empty array"
  const MULTIPLE_IDS_MESSAGE: string := "'ids' must be a non-empty array"
  const MISSING_IDS_MESSAGE: string := "One or more banner IDs do not exist"
  const INVALID_REQUEST_MESSAGE: string := "Invalid request"
  const ID_REQUIRED_MESSAGE: string := "Banner ID is required"
  const INVALID_ID_MESSAGE: string := "Invalid banner ID"
  const IMAGES_REQUIRED_MESSAGE: string := "At least one image is required to create a product."
  const SINGLE_UNEXPECTED: string := "An unexpected error occurred while deleting the banner"
  const MULTIPLE_UNEXPECTED: string := "An unexpected error occurred while deleting banners"

  /** An integer as JavaScript writes it in a template string. */
  function IntToDecimal(n: int): (r: string)
    ensures n >= 0 ==> r == NatToDecimal(n)
    ensures n < 0 ==> r == "-" + NatToDecimal(-n)
  {
    if n < 0 then "-" + NatToDecimal(-n) else NatToDecimal(n)
  }

  /** The unique index on `order`. */
  predicate UniqueOrders(banners: map<Id, Banner>)
  {
    forall a, b :: a in banners && b in banners && a != b ==> banners[a].order != banners[b].order
  }

  // ---------------------------------------------------------------- createBanner

  /**
   * n is the order `createBanner` gives a new banner: one more than the
   * order of the banner `findOne().sort({ order: -1 })` returns, or 1 for an
   * empty collection.
   */
  predicate IsNextOrder(banners: map<Id, Banner>, n: int)
  {
    if banners == map[] then n == 1
    else exists k :: (k in banners && n == banners[k].order + 1 &&
      forall j :: j in banners ==> banners[j].order <= banners[k].order)
  }

  /** The next order is determined by the collection. */
  lemma NextOrderUnique(banners: map<Id, Banner>, n1: int, n2: int)
    requires IsNextOrder(banners, n1) && IsNextOrder(banners, n2)
    ensures n1 == n2
  {
    if banners != map[] {
      var k1 :| k1 in banners && n1 == banners[k1].order + 1 &&
        forall j :: j in banners ==> banners[j].order <= banners[k1].order;
      var k2 :| k2 in banners && n2 == banners[k2].order + 1 &&
        forall j :: j in banners ==> banners[j].order <= banners[k2].order;
      assert banners[k1].order <= banners[k2].order <= banners[k1].order;
    }
  }

  /** The next order is above every stored order, so adding the new banner keeps orders unique. */
  lemma NextOrderFresh(banners: map<Id, Banner>, n: int, id: Id, b: Banner)
    requires IsNextOrder(banners, n) && UniqueOrders(banners) && id !in banners && b.order == n
    ensures forall k :: k in banners ==> banners[k].order < n
    ensures UniqueOrders(banners[id := b])
  {
  }

  /** The banner `createBanner` stores for a given order: titled by its order, with no image yet, active. */
  function NewBanner(order: int): (b: Banner)
    ensures b.order == order && b.image == "" && b.isActive
    ensures |b.title| >= 8 && b.title[..8] == "Banner #" && b.title[8..] == IntToDecimal(order)
  {
    var b := Banner("Banner #" + IntToDecimal(order), "", order, true);
    assert b.title[..8] == "Banner #" && b.title[8..] == IntToDecimal(order);
    b
  }

  // ---------------------------------------------------------------- updateBanner

  /**
   * `bannerUpdateSchema`: an optional number `order`, any `image`, an
   * optional boolean `isActive`.  The body is accepted exactly when `order`
   * is absent or a number and `isActive` absent or a boolean.
   */
  function BannerUpdateParse(body: Body): (r: Parsed)
    ensures r.Success() <==>
      (Get(body, "order").Undefined? || Get(body, "order").Num?) &&
      (Get(body, "isActive").Undefined? || Get(body, "isActive").Bool?)
  {
    var fields := [
      NumberField(Get(body, "order"), Optional, []),
      AnyField(Get(body, "image")),
      BooleanField(Get(body, "isActive"), Optional)];
    assert Object(fields).Success() <==> fields[0].Success() && fields[1].Success() && fields[2].Success();
    Object(fields)
  }

  /**
   * `findByIdAndUpdate(bannerId, { image, isActive })`: an absent value
   * leaves the field as it is; an image Mongoose cannot store as a string
   * fails the update (None).  Title and order never change.
   */
  function UpdatedBanner(b: Banner, body: Body): (r: Option<Banner>)
    ensures r.Some? <==> Get(body, "image").Undefined? || Get(body, "image").Str?
    ensures r.Some? ==> r.value.title == b.title && r.value.order == b.order
    ensures r.Some? && Get(body, "image").Str? ==> r.value.image == Get(body, "image").s
    ensures r.Some? && Get(body, "image").Undefined? ==> r.value.image == b.image
    ensures r.Some? ==> r.value.isActive == if Get(body, "isActive").Bool? then Get(body, "isActive").b else b.isActive
  {
    var imageV, activeV := Get(body, "image"), Get(body, "isActive");
    if !(imageV.Undefined? || imageV.Str?) then None
    else Some(b.(image := if imageV.Str? then imageV.s else b.image,
                 isActive := if activeV.Bool? then activeV.b else b.isActive))
  }

  /**
   * `updateBanner(bannerId)` as written: the checks, and the value it
   * returns, which is the banner as it was BEFORE the update, since
   * `findByIdAndUpdate` is called without `{ new: true }`.
   */
  function UpdateOutcome(banners: map<Id, Banner>, id: Id, body: Body): (r: Outcome<Banner>)
    ensures r.Ok? ==> id in banners && r.value == banners[id] && UpdatedBanner(banners[id], body).Some?
    ensures !BannerUpdateParse(body).Success() ==> r == Fail(ApiError(BAD_REQUEST, Join(BannerUpdateParse(body).issues, ',')))
    ensures BannerUpdateParse(body).Success() && IsObjectId(id) && id !in banners ==> r == Fail(ApiError(NOT_FOUND, NOT_FOUND_MESSAGE))
  {
    var parsed := BannerUpdateParse(body);
    if !parsed.Success() then Fail(ApiError(BAD_REQUEST, Join(parsed.issues, ',')))
    else if !IsObjectId(id) then Unexpected()
    else if id !in banners then Fail(ApiError(NOT_FOUND, NOT_FOUND_MESSAGE))
    else match UpdatedBanner(banners[id], body)
      case None => Unexpected()
      case Some(_) => Ok(banners[id])
  }

  /** As written, a successful update that changes the image returns a banner whose image is the old one. */
  lemma UpdateReturnsStale(banners: map<Id, Banner>, id: Id, body: Body, image: string)
    requires IsObjectId(id) && id in banners && banners[id].image != image
    requires body == map["image" := Str(image)]
    ensures UpdateOutcome(banners, id, body).Ok?
    ensures UpdateOutcome(banners, id, body).value.image != UpdatedBanner(banners[id], body).value.image
  {
    assert Get(body, "order") == Undefined && Get(body, "isActive") == Undefined;
  }

  /** The intended `updateBanner`: the same checks, returning the banner as stored after the update. */
  function UpdateIntended(banners: map<Id, Banner>, id: Id, body: Body): (r: Outcome<Banner>)
    ensures r.Ok? ==> id in banners && UpdatedBanner(banners[id], body) == Some(r.value)
    ensures r.Ok? ==> r.value.title == banners[id].title && r.value.order == banners[id].order
    ensures r.Fail? <==> UpdateOutcome(banners, id, body).Fail?
    ensures r.Fail? ==> r == UpdateOutcome(banners, id, body)
  {
    var parsed := BannerUpdateParse(body);
    if !parsed.Success() then Fail(ApiError(BAD_REQUEST, Join(parsed.issues, ',')))
    else if !IsObjectId(id) then Unexpected()
    else if id !in banners then Fail(ApiError(NOT_FOUND, NOT_FOUND_MESSAGE))
    else match UpdatedBanner(banners[id], body)
      case None => Unexpected()
      case Some(b) => Ok(b)
  }

  /** An update never changes the orders, so it keeps them unique. */
  lemma UpdateKeepsOrders(banners: map<Id, Banner>, id: Id, body: Body)
    requires UniqueOrders(banners)
    requires UpdateIntended(banners, id, body).Ok?
    ensures UniqueOrders(banners[id := UpdateIntended(banners, id, body).value])
  {
  }

  // ---------------------------------------------------------------- getBannerById

  /** `getBannerById(bannerId)`. */
  function GetOutcome(banners: map<Id, Banner>, id: Id): (r: Outcome<Banner>)
    ensures r.Ok? <==> IsObjectId(id) && id in banners
    ensures r.Ok? ==> r.value == banners[id]
    ensures !IsObjectId(id) ==> r == Fail(ApiError(BAD_REQUEST, INVALID_ID_MESSAGE))
  {
    if !IsObjectId(id) then Fail(ApiError(BAD_REQUEST, INVALID_ID_MESSAGE))
    else if id !in banners then Fail(ApiError(NOT_FOUND, NOT_FOUND_MESSAGE))
    else Ok(banners[id])
  }

  // ---------------------------------------------------------------- deletes

  /**
   * The count test and message of the batch deletes: 404 unless every id
   * is stored and none is listed twice; `unexpected` is the message of the
   * operation's catch block.
   */
  function BatchOutcome(banners: map<Id, Banner>, ids: seq<Id>, unexpected: string): (r: Outcome<string>)
    requires |ids| > 0
    ensures r.Ok? <==> Distinct(ids) && forall i :: 0 <= i < |ids| ==> IsObjectId(ids[i]) && ids[i] in banners
    ensures r.Ok? ==> r.value == NatToDecimal(|ids|) + " banners deleted successfully"
    ensures (forall i :: 0 <= i < |ids| ==> IsObjectId(ids[i])) && !r.Ok? ==>
      r == Fail(ApiError(NOT_FOUND, MISSING_IDS_MESSAGE))
  {
    MatchedAll(ids, banners.Keys);
    if exists i :: 0 <= i < |ids| && !IsObjectId(ids[i]) then Fail(ApiError(INTERNAL_SERVER_ERROR, unexpected))
    else if |Matched(ids, banners.Keys)| != |ids| then Fail(ApiError(NOT_FOUND, MISSING_IDS_MESSAGE))
    // deleteMany removes exactly the documents found, so "Some banners could not be deleted" never occurs.
    else Ok(NatToDecimal(|ids|) + " banners deleted successfully")
  }

  /** `deleteBanners`: `id` is `req.params.bannerId`, `ids` is `req.body.ids` when it is an array of strings. */
  function DeleteOutcome(banners: map<Id, Banner>, id: Option<Id>, ids: Option<seq<Id>>): (r: Outcome<string>)
    ensures id.Some? && id.value != "" ==> (r.Ok? <==> IsObjectId(id.value) && id.value in banners)
    ensures !(id.Some? && id.value != "") && ids.Some? && ids.value == [] ==> r == Fail(ApiError(BAD_REQUEST, IDS_MESSAGE))
    ensures !(id.Some? && id.value != "") && ids.Some? && ids.value != [] ==> r == BatchOutcome(banners, ids.value, UNEXPECTED)
    ensures !(id.Some? && id.value != "") && ids.None? ==> r == Fail(ApiError(BAD_REQUEST, INVALID_REQUEST_MESSAGE))
  {
    if id.Some? && id.value != "" then
      if !IsObjectId(id.value) then Unexpected()
      else if id.value !in banners then Fail(ApiError(NOT_FOUND, NOT_FOUND_MESSAGE))
      else Ok(DELETED_MESSAGE)
    else if ids.Some? then
      if |ids.value| == 0 then Fail(ApiError(BAD_REQUEST, IDS_MESSAGE))
      else BatchOutcome(banners, ids.value, UNEXPECTED)
    else Fail(ApiError(BAD_REQUEST, INVALID_REQUEST_MESSAGE))
  }

  /** `deleteSingleBanner(bannerId)`. */
  function DeleteSingleOutcome(banners: map<Id, Banner>, id: Option<Id>): (r: Outcome<string>)
    ensures r.Ok? <==> id.Some? && IsObjectId(id.value) && id.value in banners
    ensures id.None? || id.value == "" ==> r == Fail(ApiError(BAD_REQUEST, ID_REQUIRED_MESSAGE))
  {
    if id.None? || id.value == "" then Fail(ApiError(BAD_REQUEST, ID_REQUIRED_MESSAGE))
    else if !IsObjectId(id.value) then Fail(ApiError(INTERNAL_SERVER_ERROR, SINGLE_UNEXPECTED))
    else if id.value !in banners then Fail(ApiError(NOT_FOUND, NOT_FOUND_MESSAGE))
    else Ok(DELETED_MESSAGE)
  }

  /** `deleteMultipleBanners`: the same all-or-nothing rule, with its own messages. */
  function DeleteMultipleOutcome(banners: map<Id, Banner>, ids: Option<seq<Id>>): (r: Outcome<string>)
    ensures ids.None? || ids.value == [] ==> r == Fail(ApiError(BAD_REQUEST, MULTIPLE_IDS_MESSAGE))
    ensures ids.Some? && ids.value != [] ==> r == BatchOutcome(banners, ids.value, MULTIPLE_UNEXPECTED)
  {
    if ids.None? || |ids.value| == 0 then Fail(ApiError(BAD_REQUEST, MULTIPLE_IDS_MESSAGE))
    else BatchOutcome(banners, ids.value, MULTIPLE_UNEXPECTED)
  }

  /** The two batch deletes accept and refuse the same lists; they differ only in messages. */
  lemma BatchDeletesAgree(banners: map<Id, Banner>, ids: seq<Id>)
    ensures DeleteOutcome(banners, None, Some(ids)).Ok? <==> DeleteMultipleOutcome(banners, Some(ids)).Ok?
    ensures DeleteOutcome(banners, None, Some(ids)).Ok? ==>
      DeleteOutcome(banners, None, Some(ids)) == DeleteMultipleOutcome(banners, Some(ids))
  {
  }

  /** The ids a successful delete removes. */
  function DeleteTargets(id: Option<Id>, ids: Option<seq<Id>>): set<Id>
  {
    if id.Some? && id.value != "" then {id.value}
    else if ids.Some? then Elements(ids.value)
    else {}
  }

  // ---------------------------------------------------------------- uploadBannerImages

  /**
   * `uploadBannerImages`: 400 when no file is present, else the URL of each
   * uploaded file, in order; `upload` stands for the Cloudinary upload of
   * one file path.
   */
  function UploadImagesOutcome(files: Option<seq<string>>, upload: string -> string): (r: Outcome<seq<string>>)
    ensures r.Ok? <==> files.Some? && files.value != []
    ensures r.Fail? ==> r == Fail(ApiError(BAD_REQUEST, IMAGES_REQUIRED_MESSAGE))
    ensures r.Ok? ==> |r.value| == |files.value| && forall i :: 0 <= i < |files.value| ==> r.value[i] == upload(files.value[i])
  {
    if files.None? || |files.value| == 0 then Fail(ApiError(BAD_REQUEST, IMAGES_REQUIRED_MESSAGE))
    else Ok(seq(|files.value|, i requires 0 <= i < |files.value| => upload(files.value[i])))
  }

  // ---------------------------------------------------------------- the collection

  /** The Banner collection. */
  class BannerStore {
    var banners: map<Id, Banner>

    predicate Valid()
      reads this
    {
      UniqueOrders(banners)
    }

    constructor()
      ensures banners == map[] && Valid()
    {
      banners := map[];
    }

    /**
     * `Banner.findOne().sort({ order: -1 })`: a banner of the largest order,
     * None for an empty collection.
     */
    method LastBanner() returns (last: Option<Id>)
      ensures last.None? <==> banners == map[]
      ensures last.Some? ==> (last.value in banners &&
        forall k :: k in banners ==> banners[k].order <= banners[last.value].order)
    {
      last := None;
      var rest := banners.Keys;
      while rest != {}
        invariant rest <= banners.Keys
        invariant last.None? ==> rest == banners.Keys
        invariant last.Some? ==> (last.value in banners &&
          forall k :: k in banners && k !in rest ==> banners[k].order <= banners[last.value].order)
        decreases |rest|
      {
        var k :| k in rest;
        if last.None? || banners[k].order > banners[last.value].order {
          last := Some(k);
        }
        rest := rest - {k};
      }
    }

    /** `createBanner`: stores a new banner under `freshId`, the ObjectId MongoDB gives it. */
    method Create(freshId: Id) returns (b: Banner)
      requires Valid() && freshId !in banners
      modifies this
      ensures IsNextOrder(old(banners), b.order)
      ensures forall k :: k in old(banners) ==> old(banners)[k].order < b.order
      ensures b == NewBanner(b.order)
      ensures banners == old(banners)[freshId := b]
      ensures Valid()
    {
      var last := LastBanner();
      var newOrder := if last.Some? then banners[last.value].order + 1 else 1;
      b := NewBanner(newOrder);
      NextOrderFresh(banners, newOrder, freshId, b);
      banners := banners[freshId := b];
    }

    /**
     * `updateBanner(bannerId)` as written: the banner is stored updated, and
     * the reply is the banner as it was before the update.
     */
    method Update(id: Id, body: Body) returns (r: Outcome<Banner>)
      requires Valid()
      modifies this
      ensures r == UpdateOutcome(old(banners), id, body)
      ensures banners == if r.Ok? then old(banners)[id := UpdatedBanner(old(banners)[id], body).value] else old(banners)
      ensures Valid()
    {
      var parsed := BannerUpdateParse(body);
      if !parsed.Success() {
        return Fail(ApiError(BAD_REQUEST, Join(parsed.issues, ',')));
      }
      if !IsObjectId(id) {
        return Unexpected();
      }
      if id !in banners {
        return Fail(ApiError(NOT_FOUND, NOT_FOUND_MESSAGE));
      }
      var before := banners[id];
      var updated := UpdatedBanner(before, body);
      if updated.None? {
        return Unexpected();
      }
      UpdateKeepsOrders(banners, id, body);
      banners := banners[id := updated.value];
      r := Ok(before);
    }

    /** The intended `updateBanner`: the same store effect, replying with the banner as stored after the update. */
    method UpdateReturningNew(id: Id, body: Body) returns (r: Outcome<Banner>)
      requires Valid()
      modifies this
      ensures r == UpdateIntended(old(banners), id, body)
      ensures banners == if r.Ok? then old(banners)[id := r.value] else old(banners)
      ensures Valid()
    {
      var parsed := BannerUpdateParse(body);
      if !parsed.Success() {
        return Fail(ApiError(BAD_REQUEST, Join(parsed.issues, ',')));
      }
      if !IsObjectId(id) {
        return Unexpected();
      }
      if id !in banners {
        return Fail(ApiError(NOT_FOUND, NOT_FOUND_MESSAGE));
      }
      var updated := UpdatedBanner(banners[id], body);
      if updated.None? {
        return Unexpected();
      }
      UpdateKeepsOrders(banners, id, body);
      banners := banners[id := updated.value];
      r := Ok(updated.value);
    }

    /** `deleteBanners`: removes the banner or the listed banners, all or none. */
    method Delete(id: Option<Id>, ids: Option<seq<Id>>) returns (r: Outcome<string>)
      requires Valid()
      modifies this
      ensures r == DeleteOutcome(old(banners), id, ids)
      ensures banners == if r.Ok? then old(banners) - DeleteTargets(id, ids) else old(banners)
      ensures Valid()
    {
      r := DeleteOutcome(banners, id, ids);
      if r.Ok? {
        if !(id.Some? && id.value != "") {
          MatchedAll(ids.value, banners.Keys);
          assert Matched(ids.value, banners.Keys) == DeleteTargets(id, ids);
        }
        banners := banners - DeleteTargets(id, ids);
      }
    }

    /** `deleteSingleBanner(bannerId)`. */
    method DeleteSingle(id: Option<Id>) returns (r: Outcome<string>)
      requires Valid()
      modifies this
      ensures r == DeleteSingleOutcome(old(banners), id)
      ensures banners == if r.Ok? then old(banners) - {id.value} else old(banners)
      ensures Valid()
    {
      if id.None? || id.value == "" {
        return Fail(ApiError(BAD_REQUEST, ID_REQUIRED_MESSAGE));
      }
      if !IsObjectId(id.value) {
        return Fail(ApiError(INTERNAL_SERVER_ERROR, SINGLE_UNEXPECTED));
      }
      if id.value !in banners {
        return Fail(ApiError(NOT_FOUND, NOT_FOUND_MESSAGE));
      }
      banners := banners - {id.value};
      r := Ok(DELETED_MESSAGE);
    }

    /** `deleteMultipleBanners`. */
    method DeleteMultiple(ids: Option<seq<Id>>) returns (r: Outcome<string>)
      requires Valid()
      modifies this
      ensures r == DeleteMultipleOutcome(old(banners), ids)
      ensures banners == if r.Ok? then old(banners) - Elements(ids.value) else old(banners)
      ensures Valid()
    {
      if ids.None? || |ids.value| == 0 {
        return Fail(ApiError(BAD_REQUEST, MULTIPLE_IDS_MESSAGE));
      }
      var list := ids.value;
      if exists i | 0 <= i < |list| :: !IsObjectId(list[i]) {
        return Fail(ApiError(INTERNAL_SERVER_ERROR, MULTIPLE_UNEXPECTED));
      }
      var existing := Matched(list, banners.Keys);
      if |existing| != |list| {
        return Fail(ApiError(NOT_FOUND, MISSING_IDS_MESSAGE));
      }
      MatchedAll(list, banners.Keys);
      assert existing == Elements(list);
      banners := banners - existing;
      r := Ok(NatToDecimal(|list|) + " banners deleted successfully");
    }
  }
}
