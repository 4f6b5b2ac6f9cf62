/** The product card of the storefront's listing pages: which image it shows,
    where it links to and which of the product's fields it displays. The
    markup is modelled as an abstract `Card` record; layout and styling are
    not part of it. */
module ProductArticleEntry {
  import opened Products
  import opened NumberDisplay

  /** Where the card's image comes from: a remote URL, or the image file
      bundled with the site. */
  datatype ImageSource = Remote(url: string) | LocalPlaceholder

  /** What one card displays. */
  datatype Card = Card(
    src: ImageSource,
    href: string,
    title: string,
    text: string,
    priceLabel: string,
    stockLabel: string
  )

  const HttpScheme: string := "http://"
  const HttpsScheme: string := "https://"

  /** The hosts of the catalog service and of the stock photo. */
  const CatalogHost: string := "ecomproductapi.onrender.com"
  const StockPhotoHost: string := "images.pexels.com"

  /** The catalog service's per-product photo endpoint. */
  const PhotoEndpoint: string := HttpsScheme + CatalogHost + "/api/product/photo/"

  /** The stock photo shown for a product without an identifier. */
  const StockPhotoUrl: string :=
    HttpsScheme + StockPhotoHost + "/photos/3577561/pexels-photo-3577561.jpeg"
    + "?auto=compress&cs=tinysrgb&dpr=3&h=750&w=1260"

  /** The route prefix of the product detail page. */
  const ProductRoute: string := "/product/"

  const PriceCaption: string := "Price :"
  const StockCaption: string := "Stock :"

  /** JavaScript's `String.prototype.startsWith`. */
  predicate StartsWith(s: string, prefix: string) {
    prefix <= s
  }

  /** JavaScript's `String.prototype.endsWith`. */
  predicate EndsWith(s: string, suffix: string) {
    |suffix| <= |s| && s[|s| - |suffix|..] == suffix
  }

  /** The image URL chosen for a product identifier: its photo on the
      catalog service when the identifier is non-empty (a truthy string),
      otherwise the fixed stock photo. */
  function UrlToImage(id: string): (url: string)
    ensures |id| > 0 ==> StartsWith(url, PhotoEndpoint) && url[|PhotoEndpoint|..] == id
    ensures |id| > 0 ==> EndsWith(url, id) && |url| == |PhotoEndpoint| + |id|
    ensures |id| == 0 ==> url == StockPhotoUrl
  {
    if |id| > 0 then PhotoEndpoint + id else StockPhotoUrl
  }

  /** The validation gate: a URL is kept only when it starts with
      `http://` or `https://`; otherwise there is no valid URL. */
  function ValidImageUrl(url: string): (valid: Option<string>)
    ensures valid.Some? <==> StartsWith(url, HttpScheme) || StartsWith(url, HttpsScheme)
    ensures valid.Some? ==> valid.value == url
  {
    if StartsWith(url, HttpScheme) || StartsWith(url, HttpsScheme) then Some(url) else None
  }

  /** `validImageUrl || placeholderImage`: a valid URL is used when it is
      defined and truthy (non-empty), otherwise the bundled placeholder. */
  function ImageSrc(valid: Option<string>): (src: ImageSource)
    ensures src.Remote? <==> valid.Some? && |valid.value| > 0
    ensures src.Remote? ==> src.url == valid.value
  {
    match valid
    case Some(url) => if |url| > 0 then Remote(url) else LocalPlaceholder
    case None => LocalPlaceholder
  }

  /** The whole fallback chain for a product identifier: the candidate URL
      when it passes the gate, otherwise the bundled placeholder. */
  function ResolveImage(id: string): (src: ImageSource)
    ensures src.Remote? ==> src.url == UrlToImage(id)
    ensures src == LocalPlaceholder <==>
      !(StartsWith(UrlToImage(id), HttpScheme) || StartsWith(UrlToImage(id), HttpsScheme))
  {
    ImageSrc(ValidImageUrl(UrlToImage(id)))
  }

  /** Both candidate URLs start with `https://`. */
  lemma CandidatesAreHttps(id: string)
    ensures StartsWith(UrlToImage(id), HttpsScheme)
  {
    if |id| > 0 {
      assert (PhotoEndpoint + id)[..|HttpsScheme|] == HttpsScheme;
    } else {
      assert StockPhotoUrl[..|HttpsScheme|] == HttpsScheme;
    }
  }

  /** A product with an identifier never gets the stock photo. */
  lemma PhotoUrlIsNotStockPhoto(id: string)
    requires |id| > 0
    ensures UrlToImage(id) != StockPhotoUrl
  {
    assert CatalogHost[0] == 'e' && StockPhotoHost[0] == 'i';
    assert UrlToImage(id)[|HttpsScheme|] == CatalogHost[0];
    assert StockPhotoUrl[|HttpsScheme|] == StockPhotoHost[0];
  }

  /** Distinct non-empty identifiers get distinct photo URLs. */
  lemma PhotoUrlInjective(a: string, b: string)
    requires |a| > 0 && |b| > 0
    requires UrlToImage(a) == UrlToImage(b)
    ensures a == b
  {
  }

  /** The local placeholder is never selected: for every identifier the
      gate passes and the card shows the remote candidate URL. */
  lemma PlaceholderUnreachable(id: string)
    ensures ResolveImage(id).Remote?
    ensures ResolveImage(id).url == UrlToImage(id)
  {
    CandidatesAreHttps(id);
  }

  /** The link target of a card: the product's detail page. */
  function Href(id: string): (href: string)
    ensures StartsWith(href, ProductRoute) && href[|ProductRoute|..] == id
  {
    ProductRoute + id
  }

  /** The card rendered for a product. Only the identifier, name,
      description, price and stock are read. */
  function CardOf(p: Product): (c: Card)
    ensures c.src == Remote(UrlToImage(p.id))
    ensures StartsWith(c.href, ProductRoute) && c.href[|ProductRoute|..] == p.id
    ensures c.title == p.name && c.text == p.description
    ensures StartsWith(c.priceLabel, PriceCaption) && c.priceLabel[|PriceCaption|..] == NumberText(p.price)
    ensures StartsWith(c.stockLabel, StockCaption) && c.stockLabel[|StockCaption|..] == NumberText(p.stock)
  {
    PlaceholderUnreachable(p.id);
    Card(
      ResolveImage(p.id),
      Href(p.id),
      p.name,
      p.description,
      PriceCaption + NumberText(p.price),
      StockCaption + NumberText(p.stock)
    )
  }

  /** The fields of a product that a card shows. */
  datatype Shown = Shown(id: string, name: string, description: string, price: int, stock: int)

  function ShownOf(p: Product): Shown {
    Shown(p.id, p.name, p.description, p.price, p.stock)
  }

  /** Reads the shown fields back from a card. It recovers the shown fields
      of every card `CardOf` produces (`CardRoundTrip`); it also accepts
      cards `CardOf` never produces. */
  function ReadCard(c: Card): (r: Option<Shown>)
    ensures r.Some? ==> StartsWith(c.href, ProductRoute) && r.value.id == c.href[|ProductRoute|..]
    ensures r.Some? ==> r.value.name == c.title && r.value.description == c.text
  {
    if StartsWith(c.href, ProductRoute)
       && StartsWith(c.priceLabel, PriceCaption)
       && StartsWith(c.stockLabel, StockCaption)
    then
      match (ParseNumber(c.priceLabel[|PriceCaption|..]), ParseNumber(c.stockLabel[|StockCaption|..]))
      case (Some(price), Some(stock)) =>
        Some(Shown(c.href[|ProductRoute|..], c.title, c.text, price, stock))
      case _ => None
    else None
  }

  /** Every card carries its product's identifier, name, description, price
      and stock in full. */
  lemma CardRoundTrip(p: Product)
    ensures ReadCard(CardOf(p)) == Some(ShownOf(p))
  {
    var c := CardOf(p);
    assert c.priceLabel[|PriceCaption|..] == NumberText(p.price);
    assert c.stockLabel[|StockCaption|..] == NumberText(p.stock);
    NumberTextRoundTrip(p.price);
    NumberTextRoundTrip(p.stock);
  }

  /** Two products get the same card exactly when they agree on the five
      shown fields; `sold`, `category` and the timestamps never matter. */
  lemma CardDeterminedByShown(p: Product, q: Product)
    ensures CardOf(p) == CardOf(q) <==> ShownOf(p) == ShownOf(q)
  {
    CardRoundTrip(p);
    CardRoundTrip(q);
  }

  /** A card's text fields: the name, the description and the captioned
      price and stock. Which text follows a caption is fixed by `NatText`'s
      contract (no leading zero), so a label such as `Price :07` never
      occurs even though it would read back as 7. */
  lemma CardFields(p: Product)
    ensures CardOf(p).title == p.name && CardOf(p).text == p.description
    ensures StartsWith(CardOf(p).priceLabel, PriceCaption)
    ensures ParseNumber(CardOf(p).priceLabel[|PriceCaption|..]) == Some(p.price)
    ensures StartsWith(CardOf(p).stockLabel, StockCaption)
    ensures ParseNumber(CardOf(p).stockLabel[|StockCaption|..]) == Some(p.stock)
  {
    CardRoundTrip(p);
  }
}
