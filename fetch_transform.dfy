/**
 * The fetch script's `format_ccnavigation_header`: unlike the build
 * script, it rewrites the URLs of the caller's own menu records in place,
 * before handing the list to the template.
 */
module FetchTransform {
  import opened Prefix
  import opened Records
  import opened Config

  /**
   * The rewrite loop: afterwards every record of the caller's list holds
   * its old URL stripped of the site prefix, keeps its `ID` and title, and
   * stays where it was; no other object changes.
   */
  method FormatCcnavigationHeader(domain: string, data: seq<MenuRecord>)
    requires Distinct(data)
    modifies Objects(data)
    ensures forall i :: 0 <= i < |data| ==> data[i].url == RemovePrefix(old(data[i].url), SiteUrl(domain))
    ensures forall i :: 0 <= i < |data| ==> data[i].id == old(data[i].id) && data[i].title == old(data[i].title)
  {
    for index := 0 to |data|
      invariant forall i :: 0 <= i < index ==> data[i].url == RemovePrefix(old(data[i].url), SiteUrl(domain))
      invariant forall i :: index <= i < |data| ==> data[i].url == old(data[i].url)
      invariant forall i :: 0 <= i < |data| ==> data[i].id == old(data[i].id) && data[i].title == old(data[i].title)
    {
      var header := data[index];
      data[index].url := RemovePrefix(header.url, "https://" + domain);
    }
  }
}
