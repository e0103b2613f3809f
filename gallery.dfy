/**
 * The gallery page: categories of image URLs from the gallery endpoint, one
 * active category chosen by name, and a grid whose tiles take their row span
 * from a cycle of four.
 */
module Gallery {
  import opened Js
  import opened Http

  datatype GalleryCategory = GalleryCategory(id: int, name: string, images: seq<string>)

  const RowSpans: seq<string> := ["row-span-2", "row-span-3", "row-span-1", "row-span-2"]

  /** `categories.find(c => c.name === active)?.images ?? []` */
  function ActiveImages(categories: seq<GalleryCategory>, active: string): (images: seq<string>)
    ensures (forall i :: 0 <= i < |categories| ==> categories[i].name != active) ==> images == []
    ensures forall i ::
              (0 <= i < |categories| && categories[i].name == active && forall j :: 0 <= j < i ==> categories[j].name != active)
              ==> images == categories[i].images
  {
    var p := (c: GalleryCategory) => c.name == active;
    var k := FindIndex(categories, p);
    assert forall i :: 0 <= i < |categories| ==> (p(categories[i]) <==> categories[i].name == active);
    if k == -1 then [] else categories[k].images
  }

  /** `rowSpans[idx % rowSpans.length]` */
  function RowSpan(idx: nat): string {
    RowSpans[idx % |RowSpans|]
  }

  /** The row spans repeat every four tiles. */
  lemma RowSpanPeriodic(idx: nat)
    ensures RowSpan(idx + 4) == RowSpan(idx)
    ensures RowSpan(idx) in RowSpans
  {
  }

  /** A tile of the grid: its image, its alt text and its row span. */
  datatype Tile = Tile(src: string, alt: string, span: string)

  /** What the right-hand side shows. */
  datatype View = NoImages | Grid(tiles: seq<Tile>)

  function Render(categories: seq<GalleryCategory>, active: string): (v: View)
    ensures v == NoImages <==> ActiveImages(categories, active) == []
    ensures v.Grid? ==> var images := ActiveImages(categories, active);
                        && |v.tiles| == |images|
                        && forall i :: 0 <= i < |images| ==>
                             v.tiles[i] == Tile(images[i], active + "-" + NumberString(i), RowSpan(i))
  {
    var images := ActiveImages(categories, active);
    if |images| > 0 then
      Grid(seq(|images|, i requires 0 <= i < |images| => Tile(images[i], active + "-" + NumberString(i), RowSpan(i))))
    else NoImages
  }

  /** Right after a fetch with categories, the first one is shown. */
  lemma FirstCategoryIsShown(categories: seq<GalleryCategory>)
    requires |categories| > 0
    ensures ActiveImages(categories, categories[0].name) == categories[0].images
  {
  }

  class GalleryPage {
    var categories: seq<GalleryCategory>
    var activeCategory: string

    constructor ()
      ensures categories == [] && activeCategory == ""
    {
      categories, activeCategory := [], "";
    }

    /** The fetch effect: stores the categories and activates the first, if there is one. */
    method Load(listing: Listing<GalleryCategory>)
      modifies this
      ensures listing.Rows? ==> categories == listing.rows
      ensures listing.Rows? && |listing.rows| > 0 ==> activeCategory == listing.rows[0].name
      ensures listing.Rows? && listing.rows == [] ==> activeCategory == old(activeCategory)
      ensures listing.Failed? ==> categories == old(categories) && activeCategory == old(activeCategory)
    {
      if listing.Rows? {
        categories := listing.rows;
        if |listing.rows| > 0 {
          activeCategory := listing.rows[0].name;
        }
      }
    }

    /** The sidebar button of the category at `index`. */
    method Select(index: nat)
      requires index < |categories|
      modifies this
      ensures categories == old(categories) && activeCategory == categories[index].name
    {
      activeCategory := categories[index].name;
    }
  }
}
