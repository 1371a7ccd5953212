/** The part of the request handler `index` (app.py) that runs once the
    webhook's reply is parsed: the shape check, the normalizer, the map, and
    the error text the page shows. */
module Pipeline {

  import opened Wrappers
  import opened Strings
  import opened Normalizer
  import opened Composer

  /** The page's `map_html`: "" (no map), the map, or a text that
      `create_pollution_map` returned without the error marker. */
  datatype MapHtml = NoMap | MapPage(artifact: MapArtifact) | TextPage(text: string)

  /** What the handler passes to the page template besides the conversation. */
  datatype Page = Page(mapHtml: MapHtml, error: Option<string>)

  /** The prefix of the handler's generic exception message. */
  const HandlerErrorPrefix: string := "Đã xảy ra lỗi khi xử lý phản hồi webhook: "

  /** Python's str() of a KeyError: the key in quotes. */
  function KeyErrorText(key: string): string {
    "'" + key + "'"
  }

  /** The page's error for a KeyError names the missing key, in quotes. */
  lemma KeyErrorNamesKey(key: string)
    ensures Contains(HandlerErrorPrefix + KeyErrorText(key), "'" + key + "'")
    ensures Contains(HandlerErrorPrefix + KeyErrorText(key), key)
  {
    ContainsPiece(HandlerErrorPrefix, KeyErrorText(key), []);
    assert HandlerErrorPrefix + KeyErrorText(key) + [] == HandlerErrorPrefix + KeyErrorText(key);
    ContainsPiece(HandlerErrorPrefix + "'", key, "'");
    assert HandlerErrorPrefix + "'" + key + "'" == HandlerErrorPrefix + KeyErrorText(key);
  }

  /** Both error texts of `create_pollution_map` carry the marker the handler
      looks for. */
  lemma MessagesCarryMarker()
    ensures Contains(MissingFileMessage, ErrorMarker)
    ensures Contains(InvalidFileMessage, ErrorMarker)
  {
    var missingRest := MissingFileMessage[|ErrorMarker|..];
    var invalidRest := InvalidFileMessage[|ErrorMarker|..];
    assert MissingFileMessage == [] + ErrorMarker + missingRest;
    assert InvalidFileMessage == [] + ErrorMarker + invalidRest;
    ContainsPiece([], ErrorMarker, missingRest);
    ContainsPiece([], ErrorMarker, invalidRest);
  }

  /** The handler after the reply is parsed: no map unless the arrays are well
      shaped and at least one reading was kept; an error text of the map
      builder becomes the page's error and the map stays empty. */
  method HandleReply(p: Payload, boundary: Boundary, fmt: real -> string) returns (page: Page)
    ensures !WellShaped(p) ==> page == Page(NoMap, None)
    ensures WellShaped(p) && Readings(ColumnsOf(p)) == map[] ==> page == Page(NoMap, None)
    ensures page.mapHtml.MapPage? <==>
              WellShaped(p) && Readings(ColumnsOf(p)) != map[] && boundary.Loaded? && AllNamed(boundary.features)
    ensures page.mapHtml.MapPage? ==>
              page.mapHtml.artifact == Composed(boundary.features, Readings(ColumnsOf(p)), fmt) && page.error.None?
    ensures page.error.Some? ==> page.mapHtml.NoMap?
    ensures !page.mapHtml.TextPage?
    ensures WellShaped(p) && Readings(ColumnsOf(p)) != map[] && boundary.FileMissing? ==>
              page == Page(NoMap, Some(MissingFileMessage))
    ensures WellShaped(p) && Readings(ColumnsOf(p)) != map[] && boundary.NotJson? ==>
              page == Page(NoMap, Some(InvalidFileMessage))
    ensures WellShaped(p) && Readings(ColumnsOf(p)) != map[] && boundary.Loaded? && !AllNamed(boundary.features) ==>
              page == Page(NoMap, Some(HandlerErrorPrefix + KeyErrorText(NameKey)))
  {
    var mapHtml := NoMap;
    var error := None;
    var readings := Normalize(p);
    if readings.Some? && readings.value != map[] {
      var result := CreatePollutionMap(boundary, readings.value, fmt);
      match result
      case Raised(key) =>
        error := Some(HandlerErrorPrefix + KeyErrorText(key));
      case Message(text) =>
        MessagesCarryMarker();
        if Contains(text, ErrorMarker) {
          error := Some(text);
        } else {
          mapHtml := TextPage(text);
        }
      case Rendered(artifact) =>
        mapHtml := MapPage(artifact);
    }
    page := Page(mapHtml, error);
  }
}
