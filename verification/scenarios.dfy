/**
 * Worked commands, from the argument vector to the HTTP call or the error.
 */
module Scenarios {
  import opened Results
  import opened Text
  import opened Requests
  import opened Validators
  import opened Router
  import JsNumbers

  lemma Segment15()
    ensures '/' in "products/15" && IdSegment("products/15") == "15"
  {
    assert "products/15" == ProductsResource + "/" + "15";
    IdSegmentOf(ProductsResource, "15");
    assert '/' !in "15";
  }

  lemma Valid15()
    ensures ValidId("15")
  {
    assert JsNumbers.AllDigits("15") by {
      assert "15"[0] == '1' && "15"[1] == '5';
    }
    DigitIdsValid("15");
  }

  /** `GET products/15` asks for product 15 ... */
  lemma GetProduct15()
    ensures Command(["node", "index.js", "GET", "products/15"]) == Success(GetById("15"))
  {
    assert Command(["node", "index.js", "GET", "products/15"]) == Parse("GET", "products/15", []);
    UpperEqualsIff("GET", "GET");
    Segment15();
    Valid15();
    ParseGetBranch("GET", "products/15", []);
  }

  /** ... which is fetched from `https://fakestoreapi.com/products/15`. */
  lemma Product15Call()
    ensures Describe(GetById("15")) == Descriptor(GET, "https://fakestoreapi.com/products/15", None)
  {
  }

  lemma SegmentAbc()
    ensures '/' in "products/abc" && IdSegment("products/abc") == "abc"
  {
    assert "products/abc" == ProductsResource + "/" + "abc";
    IdSegmentOf(ProductsResource, "abc");
    assert '/' !in "abc";
  }

  lemma AbcInvalid()
    ensures !ValidId("abc")
  {
    assert JsNumbers.TrimStart("abc") == "abc" by {
      assert !JsNumbers.IsWhiteSpace('a');
    }
    WordIdsInvalid("abc");
  }

  /** `GET products/abc` is refused before any call: the id is not a number. */
  lemma GetProductAbc()
    ensures Parse("GET", "products/abc", []) == Failure(NonNumericId)
  {
    UpperEqualsIff("GET", "GET");
    SegmentAbc();
    AbcInvalid();
    ParseGetBranch("GET", "products/abc", []);
  }

  lemma SegmentEmpty()
    ensures '/' in "products/" && IdSegment("products/") == ""
  {
    assert "products/" == ProductsResource + "/" + "";
    IdSegmentOf(ProductsResource, "");
  }

  lemma EmptyIdValid()
    ensures ValidId("")
  {
    assert JsNumbers.Trim("") == "";
  }

  /**
   * `GET products/` fetches the item URL with an empty id: `isNaN("")` is
   * false, so the empty segment passes the id check.
   */
  lemma GetProductEmptyId()
    ensures Parse("GET", "products/", []) == Success(GetById(""))
  {
    UpperEqualsIff("GET", "GET");
    SegmentEmpty();
    EmptyIdValid();
    ParseGetBranch("GET", "products/", []);
  }

  /** The resource name is case-sensitive, unlike the method. */
  lemma GetCapitalisedResource()
    ensures Parse("get", "Products", []) == Failure(InvalidListResource)
  {
    assert SameIgnoringCase("get", "GET") by {
      assert SameLetter('g', 'G') && SameLetter('e', 'E') && SameLetter('t', 'T');
    }
    UpperEqualsIff("get", "GET");
    assert "Products" != ProductsResource by {
      assert "Products"[0] != ProductsResource[0];
    }
    assert '/' !in "Products";
    ParseGetBranch("get", "Products", []);
  }

  /** An unknown method is reported upper-cased. */
  lemma PatchUnsupported()
    ensures Parse("patch", "products", []) == Failure(UnsupportedMethod("PATCH"))
  {
    UpperEqualsIff("patch", "PATCH");
    assert SameIgnoringCase("patch", "PATCH") by {
      assert SameLetter('p', 'P') && SameLetter('a', 'A') && SameLetter('t', 'T');
      assert SameLetter('c', 'C') && SameLetter('h', 'H');
    }
  }

  lemma ThreeHundredIsValidPrice()
    ensures ValidPrice("300")
  {
    assert JsNumbers.AllDigits("300") by {
      assert "300"[0] == '3' && "300"[1] == '0' && "300"[2] == '0';
    }
    assert "300"[..2] == "30" && "30"[..1] == "3" && "3"[..0] == "";
    assert JsNumbers.DigitsValue("300") == 300;
    LeadingDigitsPrice("300", "");
    assert "300" + "" == "300";
  }

  lemma ParamsRemera(price: string)
    requires price != ""
    ensures ParamsPresent(["Remera", price, "remeras"])
  {
  }

  /**
   * `POST products Remera 300 remeras` sends the draft with the price as
   * typed, the derived description and the placeholder image.
   */
  lemma RemeraDraft()
    ensures NewDraft("Remera", "300", "remeras") ==
            Draft("Remera", "300", "remeras", "Producto Remera creado", "http://via.placeholder.com/200")
  {
    assert DescriptionPrefix + "Remera" + DescriptionSuffix == "Producto Remera creado";
  }

  lemma CreateRemera()
    ensures Parse("POST", "products", ["Remera", "300", "remeras"]) ==
            Success(Create(Draft("Remera", "300", "remeras", "Producto Remera creado", "http://via.placeholder.com/200")))
  {
    var params := ["Remera", "300", "remeras"];
    assert Upper("POST") == "POST" by { UpperEqualsIff("POST", "POST"); }
    assert ValidPrice(params[1]) by { ThreeHundredIsValidPrice(); }
    assert ParamsPresent(params) by { ParamsRemera("300"); }
    ParsePostBranch("POST", "products", params);
    assert Parse("POST", "products", params) == Success(Create(NewDraft(params[0], params[1], params[2])));
    RemeraDraft();
  }

  lemma MinusFiveInvalid()
    ensures !ValidPrice("-5")
  {
    assert JsNumbers.AllDigits("5") by {
      assert "5"[0] == '5';
    }
    NegativeDigitsPriceInvalid("5");
    assert "-" + "5" == "-5";
  }

  /** `POST products Remera -5 remeras` is refused before any call: the price is not above 0. */
  lemma CreateNegativePrice()
    ensures Parse("POST", "products", ["Remera", "-5", "remeras"]) == Failure(InvalidPrice)
  {
    UpperEqualsIff("POST", "POST");
    MinusFiveInvalid();
    ParamsRemera("-5");
    ParsePostBranch("POST", "products", ["Remera", "-5", "remeras"]);
  }

  /** `DELETE products` names no product. */
  lemma DeleteWithoutId()
    ensures Parse("DELETE", "products", []) == Failure(IdRequired)
  {
    UpperEqualsIff("DELETE", "DELETE");
    assert '/' !in ProductsResource;
  }

  /** Nothing but the program name: the usage error. */
  lemma NoArguments()
    ensures Command(["node", "index.js"]) == Failure(Usage)
  {
  }
}
