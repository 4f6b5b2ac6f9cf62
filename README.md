# Product cards and product grid of a server-rendered storefront

This project models the display logic of a small e-commerce storefront. The
storefront reads product records from a remote catalog service and renders
them as a grid of product cards. The model covers two parts:

- **The product card** (`components/ProductArticleEntry.tsx`). It picks the
  card's image through a three-step fallback chain:
  1. the product's own photo on the catalog service, when the product
     identifier is a non-empty (truthy) string;
  2. otherwise a fixed stock photo;
  3. then a gate that keeps the URL only if it starts with `http://` or
     `https://`; if the gate fails, the image bundled with the site is used.

  The card links to the product's detail page. It shows the name, the
  description, `Price :` followed by the price, and `Stock :` followed by the
  stock.
- **The product grid** (`components/ProductArticlesGrid.tsx`). It has one
  column per product, in input order. Each column is keyed by the product's
  identifier and holds a card element for that product.

Both parts compute values and change no state, so the model uses datatypes,
functions and lemmas throughout. The rendered markup is an abstract
`Card(src, href, title, text, priceLabel, stockLabel)` record. The grid is a
sequence of `Column(key, product)` records. A column stands for the element
`<Col key={id}><ProductArticleEntry product={p} /></Col>`: it holds the
product passed to the card, and the card it displays is `CardOf` of that
product.

Files:

- `products.dfy`: module `Products`. The `Product` and `Category` records
  and an `Option` type. Dafny names cannot begin with `_`, so the record
  field `_id` is called `id` here and the category's `__v` is called
  `revision`.
- `number_display.dfy`: module `NumberDisplay`. The text an integer is shown
  as when it appears in a card (`{price}`, `{stock}`), plus a parser that
  reads that text back.
- `product_article_entry.dfy`: module `ProductArticleEntry`. The image
  fallback chain, the link target and the card.
- `product_articles_grid.dfy`: module `ProductArticlesGrid`. The grid.

Main results:

- The local placeholder can never be selected. Both candidate URLs start
  with `https://`, so the gate always passes (`PlaceholderUnreachable`).
- A card carries its product's identifier, name, description, price and
  stock in full: `ReadCard` recovers all five from it (`CardRoundTrip`).
  So two products get the same card exactly when they agree on those five
  fields. `sold`, `category` and the timestamps never affect a card
  (`CardDeterminedByShown`).
- The grid is the card function mapped over the product list. It keeps
  length and order, its keys are the product identifiers, and it
  distributes over concatenation.

Two facts about the card component shape the model:

- The card never shows `sold`. The component destructures only `_id`,
  `name`, `description`, `price` and `stock`
  (components/ProductArticleEntry.tsx:12).
- The stock-photo branch is taken whenever `_id` is falsy. For a string,
  that means exactly the empty string (components/ProductArticleEntry.tsx:14).
  The model tests `|id| > 0`.

## Model

| member | source | states |
|---|---|---|
| `ProductArticleEntry.UrlToImage` | components/ProductArticleEntry.tsx:14-16 | for a non-empty id the URL is the photo endpoint followed by exactly the id (so it ends with the id); for an empty id it is exactly the stock-photo URL, whatever the other fields are |
| `ProductArticleEntry.ValidImageUrl` | components/ProductArticleEntry.tsx:18 | the gate yields a URL if and only if it starts with `http://` or `https://`, and the URL it yields is the input unchanged |
| `ProductArticleEntry.ImageSrc` | components/ProductArticleEntry.tsx:24 | `validImageUrl \|\| placeholderImage`: the source is remote if and only if a valid URL is defined and non-empty (truthy), and that URL is then used as is; otherwise it is the local placeholder |
| `ProductArticleEntry.ResolveImage` | components/ProductArticleEntry.tsx:14-24 | the whole chain: a remote source is always the candidate URL, and the placeholder is chosen if and only if the candidate fails the gate |
| `ProductArticleEntry.CandidatesAreHttps` | components/ProductArticleEntry.tsx:14-16 | both candidate URLs, the per-product photo and the stock photo, start with `https://` |
| `ProductArticleEntry.PlaceholderUnreachable` | components/ProductArticleEntry.tsx:14-24 | for every identifier the gate passes: the card's source is remote and is the candidate URL, so the local placeholder is never selected |
| `ProductArticleEntry.PhotoUrlIsNotStockPhoto` | components/ProductArticleEntry.tsx:14-16 | a non-empty identifier never yields the stock-photo URL, so the two branches can be told apart from the URL |
| `ProductArticleEntry.PhotoUrlInjective` | components/ProductArticleEntry.tsx:15 | distinct non-empty identifiers yield distinct photo URLs |
| `ProductArticleEntry.Href` | components/ProductArticleEntry.tsx:21 | the link target starts with `/product/`, and the rest of it is exactly the identifier |
| `ProductArticleEntry.CardOf` | components/ProductArticleEntry.tsx:12-34 | the card's image is the remote candidate URL for the id; its link is `/product/` followed by exactly the id; its title is the name and its text the description; its labels are `Price :` and `Stock :`, each followed by the display text of the price or stock |
| `ProductArticleEntry.ReadCard` | components/ProductArticleEntry.tsx:21-34 | whatever is read back from a card is taken from its parts: the id from the link after `/product/`, the name from the title and the description from the text |
| `ProductArticleEntry.CardRoundTrip` | components/ProductArticleEntry.tsx:12-34 | reading a product's card back gives exactly the product's id, name, description, price and stock |
| `ProductArticleEntry.CardDeterminedByShown` | components/ProductArticleEntry.tsx:12-34 | two products have equal cards if and only if they agree on id, name, description, price and stock; `sold`, `category` and the timestamps do not matter |
| `ProductArticleEntry.CardFields` | components/ProductArticleEntry.tsx:31-34 | the card's title is the name and its text the description; the price label is `Price :` followed by text that reads back as the price, and the same holds for `Stock :` and the stock |
| `NumberDisplay.NatText` | components/ProductArticleEntry.tsx:33-34 | the text of a natural number is non-empty, made only of digits, and has no leading zero unless the number is 0 |
| `NumberDisplay.NumberText` | components/ProductArticleEntry.tsx:33-34 | an integer's text is non-empty; it starts with `-` if and only if the integer is negative, and the rest is digits |
| `NumberDisplay.NumberTextRoundTrip` | components/ProductArticleEntry.tsx:33-34 | parsing an integer's text gives back that integer |
| `NumberDisplay.NumberTextInjective` | components/ProductArticleEntry.tsx:33-34 | distinct integers are shown as distinct texts |
| `ProductArticlesGrid.ColumnOf` | components/ProductArticlesGrid.tsx:13-14 | a column is keyed by the product's id and passes the product to its card unchanged |
| `ProductArticlesGrid.CardIn` | components/ProductArticlesGrid.tsx:14 | the card element of a column displays the card of the product it was given, and that card's image is the product's remote candidate URL |
| `ProductArticlesGrid.Grid` | components/ProductArticlesGrid.tsx:12-16 | the grid has exactly one column per product |
| `ProductArticlesGrid.GridAt` | components/ProductArticlesGrid.tsx:12-15 | column `i` of the grid is keyed by `products[i]`'s id and holds `products[i]` unchanged, so the mapping keeps order |
| `ProductArticlesGrid.EmptyGrid` | components/ProductArticlesGrid.tsx:12-16 | the grid is empty if and only if the product list is empty |
| `ProductArticlesGrid.GridAppend` | components/ProductArticlesGrid.tsx:12-16 | the grid of a concatenation is the concatenation of the grids |
| `ProductArticlesGrid.GridKeys` | components/ProductArticlesGrid.tsx:13 | the grid's keys, in order, are exactly the products' identifiers |
| `ProductArticlesGrid.GridImagesAreRemote` | components/ProductArticlesGrid.tsx:12-16 | column `i` displays exactly the card of `products[i]`, and that card shows the remote candidate URL of the product, never the local placeholder |
| `ProductArticlesGrid.GridDeterminedByShown` | components/ProductArticlesGrid.tsx:12-16 | two product lists of equal length display the same cards, position by position, if and only if they agree at each position on the five shown fields |

## Left out

- Data loading in `pages/index.tsx` (`getServerSideProps`) is left out. It is a network fetch and a JSON parse. The product list is an input of the model.
- The category page (`pages/categories/[category].tsx`) is left out. This covers its slug-to-identifier table, its filter on `category._id` and its regeneration interval. It is a page loader, not part of the card and grid components.
- The product detail page (`pages/product/[_id].tsx`) is left out. This covers the fetch by id with its `null` fallback, the "Product not found" message and the `Rs` price label. It is a page loader, not one of the modelled components.
- `components/NavBar.tsx` and `pages/_app.tsx` are left out. They are static navigation and layout with no logic.
- The `ProductResponse` interface in `models/Products.ts` is left out. It declares a type and has no behaviour.
- The UI library components, CSS classes, the image width, height and alt text, and the contents of the bundled placeholder file are left out. They are presentation only. The placeholder is the opaque constant `LocalPlaceholder`.
- An `_id` that is `undefined` rather than a string is not modelled. Identifiers are strings, and only the empty string is falsy.
- NumberDisplay.NumberText: covers integers only, and matches JavaScript's display only for magnitudes up to 2^53. JavaScript first rounds a number to a double. It then prints the shortest digits that read back as that double, padded with zeros, so 2^60 is shown as `1152921504606847000`. The model prints all the digits. Fractions, `NaN` and the exponent form used from 10^21 up are not modelled either. Price and stock are integers here, because they are only displayed.
- A price or stock that is `undefined` is not modelled. React renders `undefined` as nothing, so the label would be a bare `Price :` or `Stock :`. Here price and stock are always integers.
