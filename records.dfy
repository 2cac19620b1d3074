/**
 * The payloads the content-management API returns: navigation menus (an
 * ordered list of JSON objects with `ID`, `title` and `url`) and asset
 * manifests (a JSON object mapping asset ids to URLs).
 */
module Records {

  /**
   * One menu entry. It is an object because the Python dicts that hold
   * entries are mutable and one of the scripts rewrites them in place.
   */
  class MenuRecord {
    var id: int
    var title: string
    var url: string

    constructor (id: int, title: string, url: string)
      ensures this.id == id && this.title == title && this.url == url
    {
      this.id := id;
      this.title := title;
      this.url := url;
    }
  }

  /** No record appears twice in the list (a decoded JSON array never shares objects). */
  predicate Distinct(data: seq<MenuRecord>)
  {
    forall i, j :: 0 <= i < j < |data| ==> data[i] != data[j]
  }

  /** The objects a menu list is made of, as a frame. */
  function Objects(data: seq<MenuRecord>): set<MenuRecord>
  {
    set r | r in data
  }

  /** One asset of a manifest: its id (the JSON key) and its URL. */
  datatype Asset = Asset(id: string, url: string)

  /**
   * An asset manifest: the Python dict decoded from a JSON object, as its
   * entries in insertion (and iteration) order.
   */
  type AssetDict = seq<Asset>

  /** Each id occurs once, as the keys of a dict do. */
  predicate UniqueIds(d: AssetDict)
  {
    forall i, j :: 0 <= i < j < |d| ==> d[i].id != d[j].id
  }
}
