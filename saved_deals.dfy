/**
 * The Saved Deals page (src/pages/SavedDeals.tsx): for the signed-in user
 * it fetches the saved listing ids, then, one id after another, the
 * listing row and its images, and shows one card per saved row. Any failed
 * query aborts the whole load and the previous list stays. Each card shows
 * the primary image (or the first, or a placeholder), a location joined
 * from city and province, and `rating || 0`.
 *
 * The remote queries are oracles: the answer to the saved-ids query is a
 * parameter, and the listing and image queries are functions from a
 * listing id to an answer.
 */
module SavedDeals {
  import opened Common

  /** A listing_images row. */
  datatype Image = Image(imageUrl: Option<string>, isPrimary: bool)

  /** The listings row of one saved id (the columns the page reads). */
  datatype ListingRow = ListingRow(id: string, title: Field, price: int, condition: Field, rating: Option<int>)

  datatype City = City(cityName: Option<string>, province: Option<string>)
  datatype Address = Address(city: Option<City>)

  /** A record the loop pushes into fullListings. */
  datatype SavedListing = SavedListing(
    id: string,
    title: Field,
    price: int,
    condition: Field,
    rating: Option<int>,
    images: seq<Image>,
    address: Option<Address>)

  /** The props handed to one ListingCard. */
  datatype CardProps = CardProps(
    id: string,
    title: Field,
    price: int,
    location: string,
    image: string,
    condition: Field,
    rating: int,
    isSaved: bool)

  const Placeholder := "/placeholder.svg"

  /**
   * The record pushed for one saved id: the row's columns and the fetched
   * images; the address part is not filled in.
   */
  function Built(row: ListingRow, images: seq<Image>): (r: SavedListing)
    ensures r.id == row.id && r.title == row.title && r.price == row.price
    ensures r.condition == row.condition && r.rating == row.rating && r.images == images
    ensures r.address.None?
  {
    SavedListing(row.id, row.title, row.price, row.condition, row.rating, images, None)
  }

  // ------------------------------------------------------------ assembly

  /**
   * What the loop computes: the saved ids taken in order, each needing its
   * listing and then its images; the first failed query makes the whole
   * result an error.
   */
  function Assemble(ids: seq<string>, listingOf: string -> Fetch<ListingRow>,
                    imagesOf: string -> Fetch<seq<Image>>): (r: Fetch<seq<SavedListing>>)
    ensures r.Fetched? <==>
      forall i :: 0 <= i < |ids| ==> listingOf(ids[i]).Fetched? && imagesOf(ids[i]).Fetched?
    ensures r.Fetched? ==> (|r.value| == |ids| &&
      forall i :: 0 <= i < |ids| ==>
        r.value[i] == Built(listingOf(ids[i]).value, imagesOf(ids[i]).value))
    decreases |ids|
  {
    if ids == [] then Fetched([])
    else
      var init, last := ids[..|ids| - 1], ids[|ids| - 1];
      assert forall i :: 0 <= i < |init| ==> init[i] == ids[i];
      match Assemble(init, listingOf, imagesOf)
      case FetchError => FetchError
      case Fetched(prefix) =>
        match listingOf(last)
        case FetchError => FetchError
        case Fetched(row) =>
          match imagesOf(last)
          case FetchError => FetchError
          case Fetched(images) => Fetched(prefix + [Built(row, images)])
  }

  // ---------------------------------------------------------- card props

  /** `images.find(img => img.is_primary)`. */
  function FindPrimary(images: seq<Image>): (r: Option<Image>)
    ensures r.None? <==> forall i :: 0 <= i < |images| ==> !images[i].isPrimary
    ensures r.Some? ==> (r.value.isPrimary &&
      exists i :: 0 <= i < |images| && images[i] == r.value &&
        forall j :: 0 <= j < i ==> !images[j].isPrimary)
  {
    if images == [] then None
    else if images[0].isPrimary then Some(images[0])
    else
      var r := FindPrimary(images[1..]);
      assert forall i :: 0 <= i < |images| - 1 ==> images[1..][i] == images[i + 1];
      assert r.Some? ==> exists i :: (0 < i < |images| && images[i] == r.value &&
        forall j :: 0 <= j < i ==> !images[j].isPrimary);
      r
  }

  /**
   * The card image: the first primary image, else the first image, else
   * none (null).
   */
  function PrimaryImage(images: seq<Image>): (r: Option<Image>)
    ensures r.Some? <==> |images| > 0
    ensures (exists i :: 0 <= i < |images| && images[i].isPrimary) ==>
      r.Some? && r.value.isPrimary &&
      exists i :: 0 <= i < |images| && images[i] == r.value &&
        forall j :: 0 <= j < i ==> !images[j].isPrimary
    ensures |images| > 0 && (forall i :: 0 <= i < |images| ==> !images[i].isPrimary) ==>
      r == Some(images[0])
  {
    match FindPrimary(images)
    case Some(img) => Some(img)
    case None => if |images| > 0 then Some(images[0]) else None
  }

  /**
   * `primaryImage?.image_url || "/placeholder.svg"`: a present, non-empty URL
   * is shown; no image, a null URL or an empty one gives the placeholder.
   */
  function ImageSrc(primary: Option<Image>): (r: string)
    ensures r != ""
    ensures primary.Some? && primary.value.imageUrl.Some? && primary.value.imageUrl.value != "" ==>
      r == primary.value.imageUrl.value
    ensures primary.None? || primary.value.imageUrl.None? || primary.value.imageUrl == Some("") ==>
      r == Placeholder
  {
    if primary.Some? && primary.value.imageUrl.Some? && primary.value.imageUrl.value != ""
    then primary.value.imageUrl.value
    else Placeholder
  }

  /** The first primary image's URL, when it has a non-empty one, is what the card shows. */
  lemma FirstPrimaryImageShown(images: seq<Image>, i: int)
    requires 0 <= i < |images| && images[i].isPrimary
    requires forall j :: 0 <= j < i ==> !images[j].isPrimary
    requires images[i].imageUrl.Some? && images[i].imageUrl.value != ""
    ensures ImageSrc(PrimaryImage(images)) == images[i].imageUrl.value
  {
    var p := PrimaryImage(images);
    var k :| 0 <= k < |images| && images[k] == p.value && forall j :: 0 <= j < k ==> !images[j].isPrimary;
    assert k == i;
  }

  /** `x || ""` on an optional string. */
  function OrEmpty(s: Option<string>): string
  {
    if s.Some? then s.value else ""
  }

  /** `listing.address?.city?.city_name || ""`. */
  function CityNameOf(address: Option<Address>): string
  {
    if address.Some? && address.value.city.Some? then OrEmpty(address.value.city.value.cityName) else ""
  }

  /** `listing.address?.city?.province || ""`. */
  function ProvinceOf(address: Option<Address>): string
  {
    if address.Some? && address.value.city.Some? then OrEmpty(address.value.city.value.province) else ""
  }

  /** `[city, province].filter(Boolean).join(", ")`. */
  function LocationOf(address: Option<Address>): (r: string)
    ensures var c, p := CityNameOf(address), ProvinceOf(address);
      r == if c != "" && p != "" then c + ", " + p
           else if c != "" then c
           else p
    ensures address.None? ==> r == ""
  {
    var c, p := CityNameOf(address), ProvinceOf(address);
    assert [c, p] == [c] + [p] && [p] == [p] + [];
    FilterCons(c, [p], Truthy);
    FilterCons(p, [], Truthy);
    var parts := NonEmptyParts([c, p]);
    assert parts == (if c != "" then [c] else []) + (if p != "" then [p] else []);
    if c != "" && p != "" then
      assert parts == [c, p] && parts[1..] == [p];
      assert Join(parts, ", ") == c + ", " + Join([p], ", ");
      Join(parts, ", ")
    else
      Join(parts, ", ")
  }

  /**
   * The ListingCard props for one record: id, title, price and condition
   * passed through, the joined location, the primary image's source,
   * `rating || 0`, and the saved flag set.
   */
  function CardFor(l: SavedListing): (r: CardProps)
    ensures r.id == l.id && r.title == l.title && r.price == l.price && r.condition == l.condition
    ensures r.location == LocationOf(l.address) && r.image == ImageSrc(PrimaryImage(l.images))
    ensures r.rating == OrZero(l.rating) && r.isSaved
  {
    CardProps(l.id, l.title, l.price, LocationOf(l.address), ImageSrc(PrimaryImage(l.images)),
              l.condition, OrZero(l.rating), true)
  }

  /**
   * The cards of the page, one per record in order: every card passes the
   * record's id, title, price and condition through, is marked saved,
   * carries `rating || 0`, and shows the primary image's source, never an
   * empty one.
   */
  function Cards(listings: seq<SavedListing>): (r: seq<CardProps>)
    ensures |r| == |listings|
    ensures forall i :: 0 <= i < |r| ==>
      r[i].id == listings[i].id && r[i].title == listings[i].title &&
      r[i].price == listings[i].price && r[i].condition == listings[i].condition
    ensures forall i :: 0 <= i < |r| ==>
      r[i].isSaved && r[i].image == ImageSrc(PrimaryImage(listings[i].images)) && r[i].image != "" &&
      r[i].rating == OrZero(listings[i].rating) &&
      r[i].location == LocationOf(listings[i].address)
  {
    seq(|listings|, i requires 0 <= i < |listings| => CardFor(listings[i]))
  }

  /** Assembled records carry no address, so every card's location is empty. */
  lemma AssembledCardsHaveNoLocation(ids: seq<string>, listingOf: string -> Fetch<ListingRow>,
                                     imagesOf: string -> Fetch<seq<Image>>)
    requires Assemble(ids, listingOf, imagesOf).Fetched?
    ensures var cards := Cards(Assemble(ids, listingOf, imagesOf).value);
      |cards| == |ids| &&
      forall i :: 0 <= i < |cards| ==> cards[i].location == "" && cards[i].isSaved
  {
  }

  // ---------------------------------------------------------------- page

  /** The page's component state. */
  class SavedDealsPage {
    var savedListings: seq<SavedListing>
    var loading: bool

    constructor ()
      ensures savedListings == [] && loading
    {
      savedListings := [];
      loading := true;
    }

    /**
     * fetchSavedListings: with no user id nothing changes (the spinner
     * stays); otherwise loading ends, and the list becomes the assembled
     * records when every query succeeds and stays as it was otherwise.
     */
    method FetchSavedListings(userId: Option<string>, saved: Fetch<seq<string>>,
                              listingOf: string -> Fetch<ListingRow>,
                              imagesOf: string -> Fetch<seq<Image>>)
      modifies this
      ensures userId.None? ==> savedListings == old(savedListings) && loading == old(loading)
      ensures userId.Some? ==> !loading
      ensures userId.Some? ==> (savedListings ==
        if saved.Fetched? && Assemble(saved.value, listingOf, imagesOf).Fetched?
        then Assemble(saved.value, listingOf, imagesOf).value
        else old(savedListings))
    {
      if userId.None? {
        return;
      }
      match saved {
        case FetchError =>
        case Fetched(rows) =>
          var fullListings: seq<SavedListing> := [];
          var i := 0;
          var failed := false;
          while i < |rows| && !failed
            invariant 0 <= i <= |rows|
            invariant !failed ==> Assemble(rows[..i], listingOf, imagesOf) == Fetched(fullListings)
            invariant failed ==> Assemble(rows, listingOf, imagesOf).FetchError?
            decreases |rows| - i, if failed then 0 else 1
          {
            var listingId := rows[i];
            var listing := listingOf(listingId);
            if listing.FetchError? {
              failed := true;
            } else {
              var images := imagesOf(listingId);
              if images.FetchError? {
                failed := true;
              } else {
                assert rows[..i + 1][..i] == rows[..i];
                fullListings := fullListings + [Built(listing.value, images.value)];
                i := i + 1;
              }
            }
          }
          if !failed {
            assert rows[..i] == rows;
            savedListings := fullListings;
          }
      }
      loading := false;
    }
  }
}
