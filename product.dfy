/** The product entity: a record whose constructor validates the price and whose setters overwrite one field. */
module ProductDomain {
  import opened Results

  const InvalidPriceMessage := "가격은 양의 정수만 들어올 수 있습니다."

  /**
   * The guard of the validating constructor: a price is refused when it is null or
   * compares below zero. Prices are exact amounts; the constructor only compares them with zero.
   */
  predicate RejectsPrice(price: Option<int>)
  {
    price.None? || price.value < 0
  }

  class Product {
    var id: Option<int>
    var name: Option<string>
    var price: Option<int>

    /** The no-argument constructor leaves every field null. */
    constructor Blank()
      ensures id == None && name == None && price == None
    {
      id, name, price := None, None, None;
    }

    /** The field assignments of the validating constructor, reached only after the price guard passed. */
    constructor Init(id: Option<int>, name: Option<string>, price: Option<int>)
      requires !RejectsPrice(price)
      ensures this.id == id && this.name == name && this.price == price
      ensures !RejectsPrice(this.price)
    {
      this.id, this.name, this.price := id, name, price;
    }

    /** Replaces the id; name and price are untouched. */
    method SetId(id: Option<int>)
      modifies this`id
      ensures this.id == id
      ensures name == old(name) && price == old(price)
    {
      this.id := id;
    }

    /** Replaces the name; id and price are untouched. */
    method SetName(name: Option<string>)
      modifies this`name
      ensures this.name == name
      ensures id == old(id) && price == old(price)
    {
      this.name := name;
    }

    /** Replaces the price without the constructor's check; id and name are untouched. */
    method SetPrice(price: Option<int>)
      modifies this`price
      ensures this.price == price
      ensures id == old(id) && name == old(name)
    {
      this.price := price;
    }
  }

  /**
   * `new Product(id, name, price)`: fails with the price message exactly when the price
   * is null or negative (so a price of zero is accepted), and otherwise yields a new
   * product holding exactly the given fields.
   */
  method New(id: Option<int>, name: Option<string>, price: Option<int>) returns (r: Result<Product>)
    ensures r.Err? <==> price.None? || price.value < 0
    ensures r.Err? ==> r.error == InvalidArgument(InvalidPriceMessage)
    ensures r.Ok? ==> fresh(r.value)
    ensures r.Ok? ==> r.value.id == id && r.value.name == name && r.value.price == price
  {
    if RejectsPrice(price) {
      return Err(InvalidArgument(InvalidPriceMessage));
    }
    var p := new Product.Init(id, name, price);
    return Ok(p);
  }

  /** `new Product(name, price)`: the three-argument constructor with a null id. */
  method NewWithoutId(name: Option<string>, price: Option<int>) returns (r: Result<Product>)
    ensures r.Err? <==> price.None? || price.value < 0
    ensures r.Err? ==> r.error == InvalidArgument(InvalidPriceMessage)
    ensures r.Ok? ==> fresh(r.value)
    ensures r.Ok? ==> r.value.id == None && r.value.name == name && r.value.price == price
  {
    r := New(None, name, price);
  }

  /**
   * The non-negative price is checked at construction only: every product that
   * passed the constructor's guard takes any refused price, null included, through
   * `setPrice`, and keeps its id and name.
   */
  method SetPriceEscapesGuard(id: Option<int>, name: Option<string>, price: Option<int>, bad: Option<int>)
    returns (r: Result<Product>)
    requires !RejectsPrice(price) && RejectsPrice(bad)
    ensures r.Ok?
    ensures r.value.id == id && r.value.name == name && r.value.price == bad
    ensures RejectsPrice(r.value.price)
  {
    r := New(id, name, price);
    r.value.SetPrice(bad);
  }
}
