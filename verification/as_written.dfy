/**
 * The router exactly as the source spells it, where three identifiers do
 * not resolve: the GET branch passes `productId` though it bound
 * `productID`, the DELETE branch calls `resource.include`, which strings do
 * not have, and `deleteProduct` reads `productID`, which is not in its
 * scope. Each is a JavaScript exception at run time. `Router.Parse` models
 * the evident intent instead; the lemmas here pin down where the two part.
 */
module AsWritten {
  import opened Results
  import opened Text
  import opened Requests
  import opened Validators
  import opened Router

  /** The exceptions the misspelled names raise. */
  datatype Exception = ReferenceError(name: string) | TypeError(message: string)

  /** Running a command: it completes with a request or a reported error, or it throws. */
  datatype Outcome = Completed(result: Result<Request, Error>) | Threw(exception: Exception)

  /**
   * `processCommand` as written. The usage check, the list branch, the POST
   * branch and the default branch touch no misspelled name and run as the
   * code spells them; the two id branches throw.
   */
  function ParseAsWritten(methodName: string, resource: string, params: seq<string>): Outcome
  {
    if methodName == "" || resource == "" then Completed(Failure(Usage))
    else
      var httpMethod := Upper(methodName);
      if httpMethod == "GET" then
        if '/' in resource then Threw(ReferenceError("productId"))
        else if resource == ProductsResource then Completed(Success(List))
        else Completed(Failure(InvalidListResource))
      else if httpMethod == "POST" then
        if resource != ProductsResource then Completed(Failure(InvalidCreateResource))
        else if !ParamsPresent(params) then Completed(Failure(MissingParameters))
        else CreateProductAsWritten(params[0], params[1], params[2])
      else if httpMethod == "DELETE" then Threw(TypeError("resource.include is not a function"))
      else Completed(Failure(UnsupportedMethod(httpMethod)))
  }

  /** `createProduct` as written: the price check, then the draft it sends. */
  function CreateProductAsWritten(title: string, price: string, category: string): Outcome
  {
    if !ValidPrice(price) then Completed(Failure(InvalidPrice))
    else Completed(Success(Create(NewDraft(title, price, category))))
  }

  /**
   * `deleteProduct` as written, were it reached: the id check works, and
   * then building the path reads the undeclared `productID`.
   */
  function DeleteProductAsWritten(productId: string): Outcome
  {
    if !ValidId(productId) then Completed(Failure(NonNumericId))
    else Threw(ReferenceError("productID"))
  }

  /** Where the source completes, it agrees with the corrected router. */
  lemma AsWrittenAgrees(methodName: string, resource: string, params: seq<string>)
    requires ParseAsWritten(methodName, resource, params).Completed?
    ensures ParseAsWritten(methodName, resource, params).result == Parse(methodName, resource, params)
  {
    if methodName != "" && resource != "" && Upper(methodName) == "POST" {
      ParsePostBranch(methodName, resource, params);
    }
  }

  /** It throws on exactly the commands that need an id segment: GET with a `/`, and every DELETE. */
  lemma AsWrittenThrowsIff(methodName: string, resource: string, params: seq<string>)
    ensures ParseAsWritten(methodName, resource, params).Threw? <==>
            (methodName != "" && resource != ""
             && ((SameIgnoringCase(methodName, "GET") && '/' in resource) || SameIgnoringCase(methodName, "DELETE")))
  {
    UpperIffSameCase(methodName);
  }

  /** As written, neither a get-by-id nor a delete request is ever built. */
  lemma AsWrittenNeverSendsItemRequests(methodName: string, resource: string, params: seq<string>)
    ensures var o := ParseAsWritten(methodName, resource, params);
            !(o.Completed? && o.result.Success? && (o.result.value.GetById? || o.result.value.Delete?))
  {
  }

  /**
   * `GET products/<id>` with a valid id (say `GET products/15`): the source
   * throws where the corrected router fetches the product.
   */
  lemma GetByIdDiscrepancy(methodName: string, id: string, params: seq<string>)
    requires Upper(methodName) == "GET" && '/' !in id && ValidId(id)
    ensures ParseAsWritten(methodName, ProductsResource + "/" + id, params) == Threw(ReferenceError("productId"))
    ensures Parse(methodName, ProductsResource + "/" + id, params) == Success(GetById(id))
  {
    var resource := ProductsResource + "/" + id;
    ItemSegment(id);
    ThrowingBranches(methodName, resource, params);
    ParseGetBranch(methodName, resource, params);
  }

  /**
   * `DELETE products/<id>` with a valid id (say `DELETE products/7`): the
   * source throws where the corrected router deletes the product.
   */
  lemma DeleteDiscrepancy(methodName: string, id: string, params: seq<string>)
    requires Upper(methodName) == "DELETE" && '/' !in id && ValidId(id)
    ensures ParseAsWritten(methodName, ProductsResource + "/" + id, params) == Threw(TypeError("resource.include is not a function"))
    ensures Parse(methodName, ProductsResource + "/" + id, params) == Success(Delete(id))
  {
    var resource := ProductsResource + "/" + id;
    ItemSegment(id);
    ThrowingBranches(methodName, resource, params);
    ParseDeleteBranch(methodName, resource, params);
  }

  /** The two throwing branches, for a resource with a `/`. */
  lemma ThrowingBranches(methodName: string, resource: string, params: seq<string>)
    requires methodName != "" && '/' in resource
    ensures Upper(methodName) == "GET" ==>
              ParseAsWritten(methodName, resource, params) == Threw(ReferenceError("productId"))
    ensures Upper(methodName) == "DELETE" ==>
              ParseAsWritten(methodName, resource, params) == Threw(TypeError("resource.include is not a function"))
  {
  }

  /** The id segment of `products/<id>` is the id. */
  lemma ItemSegment(id: string)
    requires '/' !in id
    ensures '/' in ProductsResource + "/" + id && IdSegment(ProductsResource + "/" + id) == id
  {
    assert '/' !in ProductsResource;
    IdSegmentOf(ProductsResource, id);
    SplitHead(id, '/');
  }

  /**
   * Past the id check, `deleteProduct` as written throws for every valid id;
   * the corrected call goes to the item URL.
   */
  lemma DeleteProductDiscrepancy(id: string)
    requires ValidId(id)
    ensures DeleteProductAsWritten(id) == Threw(ReferenceError("productID"))
    ensures Describe(Delete(id)) == Descriptor(DELETE, BaseUrl + ProductsPath + "/" + id, None)
  {
  }
}
