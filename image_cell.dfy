/**
 * The image cell renderer `qx.ui.virtual.cell.AbstractImage`: how it turns
 * a cell value into image metadata (url, size, tooltip) and then into an
 * HTML fragment. The alias manager, the resource registry, the image
 * loader and the decoration helpers are oracle functions of `Host`.
 */
module ImageCell {
  import opened Wrappers
  import opened Js

  /** What `_identifyImage` returns: a URL string or a map with url, width, height and tooltip. */
  datatype ImageData =
    | UrlString(text: string)
    | ImageMap(url: JsValue, width: JsValue, height: JsValue, tooltip: JsValue)

  datatype Size = Size(width: JsValue, height: JsValue)

  /** The metadata the renderer works from. */
  datatype ImageInfo = ImageInfo(width: JsValue, height: JsValue, url: JsValue, tooltip: JsValue)

  /**
   * The style map handed to the decoration helper: `width + "px"` and
   * `height + "px"`, with display "inline-block", vertical-align "top"
   * and position "static".
   */
  datatype Styles = Styles(width: JsValue, height: JsValue)

  /** `Decoration.getAttributes(...).src` and the compiled CSS of its `style`. */
  datatype Decoration = Decoration(src: string, css: string)

  /** The collaborators the renderer consults. */
  datatype Host = Host(
    resolve: JsValue -> JsValue,           // AliasManager.resolve
    registryHas: JsValue -> bool,          // ResourceManager.has
    registryWidth: JsValue -> JsValue,     // ResourceManager.getImageWidth
    registryHeight: JsValue -> JsValue,    // ResourceManager.getImageHeight
    loaderIsLoaded: JsValue -> bool,       // ImageLoader.isLoaded
    loaderWidth: JsValue -> JsValue,       // ImageLoader.getWidth
    loaderHeight: JsValue -> JsValue,      // ImageLoader.getHeight
    tagName: JsValue -> string,            // Decoration.getTagName("no-repeat", url)
    decorate: (JsValue, Styles) -> Decoration)

  /** The size assumed for an image nobody knows. */
  const DefaultWidth := 16
  const DefaultHeight := 16

  /**
   * The size of the image at `source`: from the resource registry if it
   * knows the image, else from the image loader if it has loaded it, else
   * the default size.
   */
  function ImageSize(host: Host, source: JsValue): (r: Size)
    ensures host.registryHas(source) ==>
      r == Size(host.registryWidth(source), host.registryHeight(source))
    ensures !host.registryHas(source) && host.loaderIsLoaded(source) ==>
      r == Size(host.loaderWidth(source), host.loaderHeight(source))
    ensures !host.registryHas(source) && !host.loaderIsLoaded(source) ==>
      r == Size(Num(DefaultWidth), Num(DefaultHeight))
  {
    if host.registryHas(source) then Size(host.registryWidth(source), host.registryHeight(source))
    else if host.loaderIsLoaded(source) then Size(host.loaderWidth(source), host.loaderHeight(source))
    else Size(Num(DefaultWidth), Num(DefaultHeight))
  }

  /** A URL string stands for the map `{url: value}`. */
  function Normalized(d: ImageData): (m: ImageData)
    ensures m.ImageMap?
    ensures d.UrlString? ==> m == ImageMap(Str(d.text), Undefined, Undefined, Undefined)
    ensures d.ImageMap? ==> m == d
  {
    match d
    case UrlString(url) => ImageMap(Str(url), Undefined, Undefined, Undefined)
    case ImageMap(_, _, _, _) => d
  }

  /**
   * The image metadata of `d`: the url through the alias manager, the
   * given size when width and height are both truthy and otherwise the
   * size of the resolved url, and the given tooltip.
   */
  function ImageInfoOf(host: Host, d: ImageData): (r: ImageInfo)
    ensures var m := Normalized(d);
      && r.url == host.resolve(Or(m.url, Null))
      && r.tooltip == m.tooltip
      && (Truthy(m.width) && Truthy(m.height) ==> r.width == m.width && r.height == m.height)
      && (!(Truthy(m.width) && Truthy(m.height)) ==> Size(r.width, r.height) == ImageSize(host, r.url))
  {
    var m := Normalized(d);
    var url := host.resolve(Or(m.url, Null));
    var size := if Truthy(m.width) && Truthy(m.height) then Size(m.width, m.height) else ImageSize(host, url);
    ImageInfo(size.width, size.height, url, m.tooltip)
  }

  /** A URL string has no size of its own: its size always comes from the oracles. */
  lemma UrlStringSizeFromOracles(host: Host, url: string)
    ensures var r := ImageInfoOf(host, UrlString(url));
      && r.url == host.resolve(if url != "" then Str(url) else Null)
      && r.tooltip == Undefined
      && Size(r.width, r.height) == ImageSize(host, r.url)
  {
  }

  /**
   * With truthy width and height, the size oracles are not consulted: two
   * hosts that resolve the url alike give the same metadata.
   */
  lemma ExplicitSizeIgnoresOracles(h1: Host, h2: Host, d: ImageData)
    requires var m := Normalized(d);
      Truthy(m.width) && Truthy(m.height) && h1.resolve(Or(m.url, Null)) == h2.resolve(Or(m.url, Null))
    ensures ImageInfoOf(h1, d) == ImageInfoOf(h2, d)
  {
  }

  /** A url the registry knows takes its size from the registry, whatever the loader says. */
  lemma RegistryBeforeLoader(h1: Host, h2: Host, source: JsValue)
    requires h1.registryHas(source) && h2.registryHas(source)
    requires h1.registryWidth(source) == h2.registryWidth(source)
    requires h1.registryHeight(source) == h2.registryHeight(source)
    ensures ImageSize(h1, source) == ImageSize(h2, source)
  {
  }

  /** `_identifyImage(value)` of the abstract class: always throws. */
  function IdentifyImage(value: JsValue): (r: Result<ImageData, string>)
    ensures r.Failure? && r.error == "_identifyImage is abstract"
  {
    Failure("_identifyImage is abstract")
  }

  /** The `title` attribute: present exactly when the tooltip is truthy. */
  function TitleAttribute(tooltip: JsValue): (t: string)
    ensures t == "" <==> !Truthy(tooltip)
    ensures Truthy(tooltip) ==> t == "title=\"" + ToString(tooltip) + "\""
  {
    if Truthy(tooltip) then "title=\"" + ToString(tooltip) + "\"" else ""
  }

  predicate StartsWith(s: string, prefix: string) {
    |prefix| <= |s| && s[..|prefix|] == prefix
  }

  predicate EndsWith(s: string, suffix: string) {
    |suffix| <= |s| && s[|s| - |suffix|..] == suffix
  }

  /** The end of the element: a self-closing `img`, or a closing `div` tag. */
  function Closing(tag: string): string {
    if tag == "img" then "/>" else "></div>"
  }

  /** The HTML of one image cell: an `img` element when the decoration tag is "img", otherwise a `div`. */
  function Markup(tag: string, decoration: Decoration, title: string): (r: string)
    ensures tag == "img" ==> StartsWith(r, "<img src=\"")
    ensures tag != "img" ==> StartsWith(r, "<div style=\"")
    ensures EndsWith(r, title + Closing(tag))
  {
    if tag == "img" then
      "<img src=\"" + decoration.src + "\" style=\"" + decoration.css + "\" " + title + "/>"
    else
      "<div style=\"" + decoration.css + "\" " + title + "></div>"
  }

  /**
   * The title is the only part of the markup that depends on it, and it
   * sits just before the end of the element.
   */
  lemma TitleBeforeClosing(tag: string, decoration: Decoration, title: string)
    ensures var bare := Markup(tag, decoration, "");
      var n := |bare| - |Closing(tag)|;
      0 <= n && Markup(tag, decoration, title) == bare[..n] + title + Closing(tag)
  {
    var bare := Markup(tag, decoration, "");
    var n := |bare| - |Closing(tag)|;
    var head := if tag == "img" then "<img src=\"" + decoration.src + "\" style=\"" + decoration.css + "\" "
                else "<div style=\"" + decoration.css + "\" ";
    assert bare == head + "" + Closing(tag);
    assert bare[..n] == head;
  }

  /**
   * `getContent(value, states)`: the empty string for null; otherwise the
   * subclass's `identify` decides the image (its error propagates), and the
   * markup of the resolved metadata follows.
   */
  function GetContent(host: Host, identify: JsValue -> Result<ImageData, string>, value: JsValue)
    : (r: Result<string, string>)
    ensures value == Null ==> r == Success("")
    ensures value != Null && identify(value).Failure? ==> r == Failure(identify(value).error)
    ensures value != Null && identify(value).Success? ==>
      var info := ImageInfoOf(host, identify(value).value);
      var tag := host.tagName(info.url);
      && r == Success(Markup(tag, host.decorate(info.url, Styles(info.width, info.height)), TitleAttribute(info.tooltip)))
      && (tag == "img" ==> StartsWith(r.value, "<img src=\""))
      && (tag != "img" ==> StartsWith(r.value, "<div style=\""))
      && EndsWith(r.value, TitleAttribute(info.tooltip) + Closing(tag))
  {
    if value == Null then Success("")
    else
      match identify(value)
      case Failure(e) => Failure(e)
      case Success(d) =>
        var info := ImageInfoOf(host, d);
        var decoration := host.decorate(info.url, Styles(info.width, info.height));
        Success(Markup(host.tagName(info.url), decoration, TitleAttribute(info.tooltip)))
  }

  /** With the abstract `_identifyImage`, every value but null makes `getContent` throw. */
  lemma AbstractGetContentThrows(host: Host, value: JsValue)
    requires value != Null
    ensures GetContent(host, IdentifyImage, value) == Failure("_identifyImage is abstract")
  {
  }
}
