/**
 * The build script's data transformers, `format_header_footer` and
 * `format_scripts_styles`: each deep-copies the payload, rewrites the
 * copy's URLs to site-relative paths and collects a debug table with one
 * row per entry. The payload handed in is left exactly as it was.
 */
module BuildTransform {
  import opened Strings
  import opened Prefix
  import opened MdTable
  import opened Records
  import opened Config

  /** `C_GRAY` (dim, then white foreground) and `C_RESET` (reset all), the ANSI markers. */
  const C_GRAY: string := "\U{1B}[2m\U{1B}[37m"
  const C_RESET: string := "\U{1B}[0m"

  const MENU_COLUMNS: Row := ["ID", "Title", "Uniform Resource Locator (URL)"]
  const ASSET_COLUMNS: Row := ["ID", "Uniform Resource Locator (URL)"]

  /**
   * The URL column of a debug row: the URL itself when the strip left it
   * alone, otherwise the site prefix in grey followed by the path.
   */
  function DisplayUrl(domain: string, url: string): (d: string)
    ensures !StartsWith(url, SiteUrl(domain)) ==> d == url
    ensures StartsWith(url, SiteUrl(domain)) ==>
              d == C_GRAY + SiteUrl(domain) + C_RESET + url[|SiteUrl(domain)|..]
  {
    var path := RemovePrefix(url, SiteUrl(domain));
    if url != path then C_GRAY + "https://" + domain + C_RESET + path else url
  }

  /**
   * A debug row shows the URL as it came exactly when it does not belong
   * to the site; a site URL is always shown highlighted.
   */
  lemma DisplayUnchangedIff(domain: string, url: string)
    ensures DisplayUrl(domain, url) == url <==> !StartsWith(url, SiteUrl(domain))
  {
    if StartsWith(url, SiteUrl(domain)) {
      assert url[0] == 'h';
      assert DisplayUrl(domain, url)[0] == C_GRAY[0] != 'h';
    }
  }

  /** The debug row of a menu entry: one cell per column title. */
  function MenuInfoRow(domain: string, id: int, title: string, url: string): (row: Row)
    ensures |row| == |MENU_COLUMNS|
  {
    [DecimalString(id), title, DisplayUrl(domain, url)]
  }

  /** The debug row of an asset: one cell per column title. */
  function AssetInfoRow(domain: string, id: string, url: string): (row: Row)
    ensures |row| == |ASSET_COLUMNS|
  {
    [id, DisplayUrl(domain, url)]
  }

  /**
   * What the debug rows show: a menu entry's `ID` cell reads back as its
   * ID, its title as is, and an asset's id as is; in both, the URL cell is
   * the URL unchanged exactly when it is not a site URL.
   */
  lemma InfoRowsShow(domain: string, id: int, title: string, assetId: string, url: string)
    ensures var row := MenuInfoRow(domain, id, title, url);
            && (id >= 0 ==> (forall i :: 0 <= i < |row[0]| ==> '0' <= row[0][i] <= '9') && DecimalValue(row[0]) == id)
            && row[1] == title
            && (row[2] == url <==> !StartsWith(url, SiteUrl(domain)))
    ensures var row := AssetInfoRow(domain, assetId, url);
            && row[0] == assetId
            && (row[1] == url <==> !StartsWith(url, SiteUrl(domain)))
  {
    DisplayUnchangedIff(domain, url);
    if id >= 0 {
      DecimalRoundTrip(id);
    }
  }

  /**
   * `copy.deepcopy(data)` for a menu list: new records, one per entry, with
   * the same field values.
   */
  method DeepCopy(data: seq<MenuRecord>) returns (copy: seq<MenuRecord>)
    ensures |copy| == |data| && Distinct(copy)
    ensures forall i :: 0 <= i < |data| ==> fresh(copy[i])
    ensures forall i :: 0 <= i < |data| ==>
              copy[i].id == data[i].id && copy[i].title == data[i].title && copy[i].url == data[i].url
  {
    copy := [];
    for k := 0 to |data|
      invariant |copy| == k && Distinct(copy)
      invariant forall i :: 0 <= i < k ==> fresh(copy[i])
      invariant forall i :: 0 <= i < k ==>
                  copy[i].id == data[i].id && copy[i].title == data[i].title && copy[i].url == data[i].url
    {
      var r := new MenuRecord(data[k].id, data[k].title, data[k].url);
      copy := copy + [r];
    }
  }

  /**
   * `format_header_footer` up to rendering: the returned records are new
   * and in the input's order, each keeping its `ID` and title and holding
   * the stripped URL; the debug table has the column titles and then one
   * row per entry, in order. The input records are not modified.
   */
  method FormatHeaderFooter(domain: string, data: seq<MenuRecord>) returns (dataPath: seq<MenuRecord>, info: seq<Row>)
    ensures |dataPath| == |data| && Distinct(dataPath)
    ensures forall i :: 0 <= i < |data| ==> fresh(dataPath[i]) && unchanged(data[i])
    ensures forall i :: 0 <= i < |data| ==>
              && dataPath[i].id == data[i].id
              && dataPath[i].title == data[i].title
              && dataPath[i].url == RemovePrefix(data[i].url, SiteUrl(domain))
    ensures |info| == |data| + 1 && info[0] == MENU_COLUMNS
    ensures forall i :: 0 <= i < |data| ==> info[i + 1] == MenuInfoRow(domain, data[i].id, data[i].title, data[i].url)
  {
    dataPath := DeepCopy(data);
    info := [MENU_COLUMNS];
    for index := 0 to |data|
      invariant forall i :: 0 <= i < |data| ==> fresh(dataPath[i])
      invariant |info| == index + 1 && info[0] == MENU_COLUMNS
      invariant forall i :: 0 <= i < index ==>
                  info[i + 1] == MenuInfoRow(domain, old(data[i].id), old(data[i].title), old(data[i].url))
      invariant forall i :: 0 <= i < |data| ==> dataPath[i].id == old(data[i].id) && dataPath[i].title == old(data[i].title)
      invariant forall i :: 0 <= i < index ==> dataPath[i].url == RemovePrefix(old(data[i].url), SiteUrl(domain))
    {
      var header := data[index];
      var id, title, urlFull := header.id, header.title, header.url;
      var urlPath := RemovePrefix(urlFull, SiteUrl(domain));
      dataPath[index].url := urlPath;
      info := info + [MenuInfoRow(domain, id, title, urlFull)];
    }
  }

  /**
   * `format_scripts_styles` up to rendering: the copy has the same ids in
   * the same order, each URL stripped of the site prefix; the debug table
   * has the column titles and one row per asset in the dict's order. The
   * input is a value here, so it is untouched by construction. Assigning
   * `data_path[id_]` overwrites the entry already under that id, which is
   * entry `n` because ids are unique.
   */
  method FormatScriptsStyles(domain: string, data: AssetDict) returns (dataPath: AssetDict, info: seq<Row>)
    requires UniqueIds(data)
    ensures |dataPath| == |data| && UniqueIds(dataPath)
    ensures forall i :: 0 <= i < |data| ==>
              dataPath[i] == Asset(data[i].id, RemovePrefix(data[i].url, SiteUrl(domain)))
    ensures |info| == |data| + 1 && info[0] == ASSET_COLUMNS
    ensures forall i :: 0 <= i < |data| ==> info[i + 1] == AssetInfoRow(domain, data[i].id, data[i].url)
  {
    dataPath := data;
    info := [ASSET_COLUMNS];
    for n := 0 to |data|
      invariant |dataPath| == |data|
      invariant forall i :: 0 <= i < n ==> dataPath[i] == Asset(data[i].id, RemovePrefix(data[i].url, SiteUrl(domain)))
      invariant forall i :: n <= i < |data| ==> dataPath[i] == data[i]
      invariant |info| == n + 1 && info[0] == ASSET_COLUMNS
      invariant forall i :: 0 <= i < n ==> info[i + 1] == AssetInfoRow(domain, data[i].id, data[i].url)
    {
      var asset := data[n];
      dataPath := dataPath[n := Asset(asset.id, RemovePrefix(asset.url, SiteUrl(domain)))];
      info := info + [AssetInfoRow(domain, asset.id, asset.url)];
    }
  }

  /** Rows that all have the same number of cells always make a table. */
  lemma {:induction false} UniformRowsRender(rows: seq<Row>, width: nat)
    requires rows != []
    requires forall k :: 0 <= k < |rows| ==> |rows[k]| == width
    ensures Renderable(rows)
  {
    ColumnCountIsMin(rows);
  }

  /** The debug table `format_header_footer` builds always renders: every row has three cells. */
  lemma MenuInfoRenders(domain: string, data: seq<MenuRecord>, info: seq<Row>)
    requires |info| == |data| + 1 && info[0] == MENU_COLUMNS
    requires forall i :: 0 <= i < |data| ==> info[i + 1] == MenuInfoRow(domain, data[i].id, data[i].title, data[i].url)
    ensures Renderable(info)
  {
    forall k | 0 < k < |info|
      ensures |info[k]| == |MENU_COLUMNS|
    {
      assert info[k] == MenuInfoRow(domain, data[k - 1].id, data[k - 1].title, data[k - 1].url);
    }
    UniformRowsRender(info, |MENU_COLUMNS|);
  }

  /** The debug table `format_scripts_styles` builds always renders: every row has two cells. */
  lemma AssetInfoRenders(domain: string, data: AssetDict, info: seq<Row>)
    requires |info| == |data| + 1 && info[0] == ASSET_COLUMNS
    requires forall i :: 0 <= i < |data| ==> info[i + 1] == AssetInfoRow(domain, data[i].id, data[i].url)
    ensures Renderable(info)
  {
    forall k | 0 < k < |info|
      ensures |info[k]| == |ASSET_COLUMNS|
    {
      assert info[k] == AssetInfoRow(domain, data[k - 1].id, data[k - 1].url);
    }
    UniformRowsRender(info, |ASSET_COLUMNS|);
  }
}
