/** The product grid: one keyed column per product, each holding a card
    element for that product, in the order of the input. A column is the
    element `<Col key={id}><ProductArticleEntry product={p} /></Col>`: it
    carries its key and the product passed to the card, and the card it
    displays is `CardOf` of that product. */
module ProductArticlesGrid {
  import opened Products
  import opened ProductArticleEntry

  /** One column of the grid: its list key and the product given to its card. */
  datatype Column = Column(key: string, product: Product)

  /** The column for one product: keyed by its identifier, holding the
      product unchanged. */
  function ColumnOf(p: Product): (column: Column)
    ensures column.key == p.id && column.product == p
  {
    Column(p.id, p)
  }

  /** The card a column displays: `<ProductArticleEntry product={p} />`
      renders the card of the product it is given. */
  function CardIn(column: Column): (c: Card)
    ensures c == CardOf(column.product)
    ensures c.src == Remote(UrlToImage(column.product.id))
  {
    CardOf(column.product)
  }

  /** `products.map(...)`: one column per product, in order. */
  function Grid(products: seq<Product>): (columns: seq<Column>)
    ensures |columns| == |products|
  {
    if |products| == 0 then [] else [ColumnOf(products[0])] + Grid(products[1..])
  }

  /** Column `i` of the grid is rendered from `products[i]`, passed unchanged. */
  lemma {:induction false} GridAt(products: seq<Product>, i: nat)
    requires i < |products|
    ensures |Grid(products)| == |products|
    ensures Grid(products)[i] == ColumnOf(products[i])
    decreases i
  {
    if i > 0 {
      GridAt(products[1..], i - 1);
    }
  }

  /** The keys of a grid, in order. */
  function Keys(columns: seq<Column>): (keys: seq<string>)
    ensures |keys| == |columns|
    ensures forall i :: 0 <= i < |columns| ==> keys[i] == columns[i].key
  {
    if |columns| == 0 then [] else [columns[0].key] + Keys(columns[1..])
  }

  /** The identifiers of a product list, in order. */
  function Ids(products: seq<Product>): (ids: seq<string>)
    ensures |ids| == |products|
    ensures forall i :: 0 <= i < |products| ==> ids[i] == products[i].id
  {
    if |products| == 0 then [] else [products[0].id] + Ids(products[1..])
  }

  /** An empty product list gives an empty grid, and only it does. */
  lemma EmptyGrid(products: seq<Product>)
    ensures Grid(products) == [] <==> products == []
  {
  }

  /** Mapping distributes over concatenation: rendering two lists one after
      the other is rendering their concatenation. */
  lemma {:induction false} GridAppend(a: seq<Product>, b: seq<Product>)
    ensures Grid(a + b) == Grid(a) + Grid(b)
    decreases |a|
  {
    if |a| == 0 {
      assert a + b == b;
    } else {
      GridAppend(a[1..], b);
      assert (a + b)[1..] == a[1..] + b;
    }
  }

  /** The grid's keys are exactly the products' identifiers, so the keys
      are distinct exactly when the identifiers are. */
  lemma {:induction false} GridKeys(products: seq<Product>)
    ensures Keys(Grid(products)) == Ids(products)
    decreases |products|
  {
    if |products| > 0 {
      GridKeys(products[1..]);
    }
  }

  /** No card in the grid shows the local placeholder. */
  lemma GridImagesAreRemote(products: seq<Product>)
    ensures forall i :: 0 <= i < |products| ==>
      CardIn(Grid(products)[i]) == CardOf(products[i])
      && CardIn(Grid(products)[i]).src == Remote(UrlToImage(products[i].id))
  {
    forall i | 0 <= i < |products|
      ensures CardIn(Grid(products)[i]) == CardOf(products[i])
      ensures CardIn(Grid(products)[i]).src == Remote(UrlToImage(products[i].id))
    {
      GridAt(products, i);
      PlaceholderUnreachable(products[i].id);
    }
  }

  /** Two product lists of equal length display the same cards, position
      by position, exactly when they agree on the fields a card shows. */
  lemma GridDeterminedByShown(a: seq<Product>, b: seq<Product>)
    requires |a| == |b|
    ensures (forall i :: 0 <= i < |a| ==> CardIn(Grid(a)[i]) == CardIn(Grid(b)[i])) <==>
      (forall i :: 0 <= i < |a| ==> ShownOf(a[i]) == ShownOf(b[i]))
  {
    forall i | 0 <= i < |a|
      ensures CardIn(Grid(a)[i]) == CardIn(Grid(b)[i]) <==> ShownOf(a[i]) == ShownOf(b[i])
    {
      GridAt(a, i);
      GridAt(b, i);
      CardDeterminedByShown(a[i], b[i]);
    }
  }
}
