/**
 * The command router: from the method token, the resource token and the
 * remaining parameters to the request to send, or to the error the
 * command-line client reports before exiting with status 1.
 *
 * Absent command-line arguments are represented by the empty string: the
 * client treats an absent argument and an empty one alike (both are falsy).
 *
 * Two details follow the evident intent of the code rather than its letter
 * (see `AsWritten` for the letter): the id is the second `/`-separated
 * segment of the resource, bound by the destructuring and then passed on,
 * and DELETE detects that segment with the same contains-`/` test as GET.
 */
module Router {
  import opened Results
  import opened Text
  import opened Requests
  import opened Validators

  /** The only resource the client knows. */
  const ProductsResource: string := "products"

  /** Every way a command is refused before a request is sent. */
  datatype Error =
    | Usage                           // method or resource missing: help is shown
    | UnsupportedMethod(name: string)  // the upper-cased method is none of GET, POST, DELETE
    | InvalidListResource             // GET of something other than `products` or `<x>/<id>`
    | NonNumericId                    // the id segment is not a number
    | InvalidCreateResource           // POST to something other than `products`
    | MissingParameters               // POST without title, price or category
    | InvalidPrice                    // the price does not read as a number above 0
    | IdRequired                      // DELETE without an id segment

  /** The second `/`-separated segment of the resource. */
  function IdSegment(resource: string): (id: string)
    requires '/' in resource
    ensures '/' !in id
  {
    Split(resource, '/')[1]
  }

  /** The id segment, when it passes the id check. */
  function CheckedId(resource: string): (r: Result<string, Error>)
    requires '/' in resource
  {
    var id := IdSegment(resource);
    if ValidId(id) then Success(id) else Failure(NonNumericId)
  }

  /**
   * Every request the router builds is one the client may send: ids are
   * single segments that pass the id check, and a draft has non-empty
   * title, price and category, a valid price and the derived fields.
   */
  predicate WellFormed(r: Request)
  {
    match r
    case List => true
    case GetById(id) => '/' !in id && ValidId(id)
    case Create(d) =>
      d.title != "" && d.price != "" && d.category != "" && ValidPrice(d.price)
      && d == NewDraft(d.title, d.price, d.category)
    case Delete(id) => '/' !in id && ValidId(id)
  }

  /**
   * Routes a command to the request it asks for or to the reason it is
   * refused. This is the code's evident intent: the id is the second
   * `/`-segment of the resource, and DELETE tests for a `/` as GET does.
   * As written, both id branches throw instead (module `AsWritten`).
   */
  function Parse(methodName: string, resource: string, params: seq<string>): (r: Result<Request, Error>)
    ensures methodName == "" || resource == "" ==> r == Failure(Usage)
    ensures r.Success? ==> WellFormed(r.value)
    ensures r.Success? && r.value.Create? ==>
              (ParamsPresent(params) && r.value.draft.title == params[0]
               && r.value.draft.price == params[1] && r.value.draft.category == params[2])
  {
    if methodName == "" || resource == "" then Failure(Usage)
    else
      var httpMethod := Upper(methodName);
      if httpMethod == "GET" then
        if '/' in resource then
          (match CheckedId(resource)
           case Success(id) => Success(GetById(id))
           case Failure(e) => Failure(e))
        else if resource == ProductsResource then Success(List)
        else Failure(InvalidListResource)
      else if httpMethod == "POST" then
        if resource != ProductsResource then Failure(InvalidCreateResource)
        else if !ParamsPresent(params) then Failure(MissingParameters)
        else if !ValidPrice(params[1]) then Failure(InvalidPrice)
        else Success(Create(NewDraft(params[0], params[1], params[2])))
      else if httpMethod == "DELETE" then
        if '/' in resource then
          (match CheckedId(resource)
           case Success(id) => Success(Delete(id))
           case Failure(e) => Failure(e))
        else Failure(IdRequired)
      else Failure(UnsupportedMethod(httpMethod))
  }

  /** Argument `i` of the process, or "" when there are fewer. */
  function Arg(argv: seq<string>, i: nat): string
  {
    if i < |argv| then argv[i] else ""
  }

  /**
   * The whole program's decision: the first two entries of the argument
   * vector are the runtime and the script, then come the method, the
   * resource and the parameters.
   */
  function Command(argv: seq<string>): (r: Result<Request, Error>)
    ensures |argv| < 4 ==> r == Failure(Usage)
    ensures |argv| >= 4 ==> r == Parse(argv[2], argv[3], argv[4..])
  {
    Parse(Arg(argv, 2), Arg(argv, 3), if |argv| > 4 then argv[4..] else [])
  }

  // ------------------------------------------------------ reference routing

  /** `resource` has its first `/` at `i`. */
  predicate FirstSlashAt(resource: string, i: int)
  {
    0 <= i < |resource| && resource[i] == '/' && '/' !in resource[..i]
  }

  /** `id` is the slash-free text from `start` up to the next `/` or the end. */
  predicate SegmentFrom(resource: string, start: int, id: string)
  {
    0 <= start && start + |id| <= |resource|
    && resource[start..start + |id|] == id && '/' !in id
    && (start + |id| == |resource| || resource[start + |id|] == '/')
  }

  /** `id` is the text between the first `/` of the resource and the next one (or the end). */
  predicate NamesId(resource: string, id: string)
  {
    exists i | 0 <= i < |resource| :: FirstSlashAt(resource, i) && SegmentFrom(resource, i + 1, id)
  }

  /**
   * Which request a command asks for, stated per operation without the
   * router's order of tests: the method in any letter case, the resource,
   * and the parameters each operation needs.
   */
  predicate Accepts(methodName: string, resource: string, params: seq<string>, r: Request)
  {
    methodName != "" && resource != "" &&
    match r
    case List =>
      SameIgnoringCase(methodName, "GET") && resource == ProductsResource
    case GetById(id) =>
      SameIgnoringCase(methodName, "GET") && NamesId(resource, id) && ValidId(id)
    case Create(d) =>
      SameIgnoringCase(methodName, "POST") && resource == ProductsResource
      && ParamsPresent(params) && ValidPrice(params[1])
      && d == NewDraft(params[0], params[1], params[2])
    case Delete(id) =>
      SameIgnoringCase(methodName, "DELETE") && NamesId(resource, id) && ValidId(id)
  }

  /** The id segment is the first piece of what follows the first `/`. */
  lemma IdSegmentAfterFirstSlash(resource: string)
    requires '/' in resource
    ensures var i := IndexOf(resource, '/');
            IdSegment(resource) == Split(resource[i + 1..], '/')[0]
  {
    var i := IndexOf(resource, '/');
    var t := resource[i + 1..];
    assert resource == resource[..i] + ['/'] + t;
    SplitAfterFree(resource[..i], t, '/');
  }

  /** The segment the router binds is one `NamesId` describes. */
  lemma IdSegmentIsNamed(resource: string)
    requires '/' in resource
    ensures NamesId(resource, IdSegment(resource))
  {
    var i := IndexOf(resource, '/');
    IdSegmentAfterFirstSlash(resource);
    SegmentAfter(resource, i);
    assert FirstSlashAt(resource, i);
  }

  /** The first piece of what follows position `i` is the segment starting after `i`. */
  lemma SegmentAfter(resource: string, i: nat)
    requires i < |resource|
    ensures SegmentFrom(resource, i + 1, Split(resource[i + 1..], '/')[0])
  {
    var t := resource[i + 1..];
    var seg := Split(t, '/')[0];
    SplitHeadPrefix(t, '/');
    assert resource[i + 1..i + 1 + |seg|] == t[..|seg|];
  }

  /** And it is the only one. */
  lemma NamedIsIdSegment(resource: string, id: string)
    requires NamesId(resource, id)
    ensures '/' in resource && id == IdSegment(resource)
  {
    var k :| 0 <= k < |resource| && FirstSlashAt(resource, k) && SegmentFrom(resource, k + 1, id);
    SegmentIsIdSegment(resource, k, id);
  }

  lemma SegmentIsIdSegment(resource: string, k: nat, id: string)
    requires FirstSlashAt(resource, k) && SegmentFrom(resource, k + 1, id)
    ensures '/' in resource && id == IdSegment(resource)
  {
    assert resource[k] == '/';
    IndexOfIs(resource, '/', k);
    var t := resource[k + 1..];
    IdSegmentAfterFirstSlash(resource);
    SplitHeadPrefix(t, '/');
    assert t[..|id|] == id;
    FreePrefixUnique(t, id, Split(t, '/')[0], '/');
  }

  /** The id segment is exactly the text between the first `/` and the next (or the end). */
  lemma IdSegmentNames(resource: string, id: string)
    ensures '/' in resource && id == IdSegment(resource) <==> NamesId(resource, id)
  {
    if '/' in resource && id == IdSegment(resource) {
      IdSegmentIsNamed(resource);
    }
    if NamesId(resource, id) {
      NamedIsIdSegment(resource, id);
    }
  }

  lemma UpperIffSameCase(methodName: string)
    ensures Upper(methodName) == "GET" <==> SameIgnoringCase(methodName, "GET")
    ensures Upper(methodName) == "POST" <==> SameIgnoringCase(methodName, "POST")
    ensures Upper(methodName) == "DELETE" <==> SameIgnoringCase(methodName, "DELETE")
  {
    UpperEqualsIff(methodName, "GET");
    UpperEqualsIff(methodName, "POST");
    UpperEqualsIff(methodName, "DELETE");
  }

  /** The GET branch, against the reference. */
  lemma ParseAcceptsGet(methodName: string, resource: string, params: seq<string>, r: Request)
    requires methodName != "" && resource != "" && Upper(methodName) == "GET"
    ensures Parse(methodName, resource, params) == Success(r) <==> Accepts(methodName, resource, params, r)
  {
    UpperIffSameCase(methodName);
    match r
    case GetById(id) =>
      IdSegmentNames(resource, id);
    case List =>
      assert '/' !in ProductsResource;
    case Create(_) =>
    case Delete(_) =>
      if '/' in resource {
        IdSegmentNames(resource, IdSegment(resource));
      }
  }

  /** The DELETE branch, against the reference. */
  lemma ParseAcceptsDelete(methodName: string, resource: string, params: seq<string>, r: Request)
    requires methodName != "" && resource != "" && Upper(methodName) == "DELETE"
    ensures Parse(methodName, resource, params) == Success(r) <==> Accepts(methodName, resource, params, r)
  {
    UpperIffSameCase(methodName);
    if '/' in resource {
      IdSegmentNames(resource, IdSegment(resource));
    }
    if r.Delete? {
      IdSegmentNames(resource, r.id);
    }
  }

  /**
   * The router builds a request exactly when the command asks for it: sound
   * (what it builds is accepted) and complete (what is accepted is built).
   */
  lemma ParseAccepts(methodName: string, resource: string, params: seq<string>, r: Request)
    ensures Parse(methodName, resource, params) == Success(r) <==> Accepts(methodName, resource, params, r)
  {
    UpperIffSameCase(methodName);
    if methodName != "" && resource != "" {
      var httpMethod := Upper(methodName);
      if httpMethod == "GET" {
        ParseAcceptsGet(methodName, resource, params, r);
      } else if httpMethod == "DELETE" {
        ParseAcceptsDelete(methodName, resource, params, r);
      }
    }
  }

  // ---------------------------------------------------- the branches, one by one

  lemma ParseGetBranch(methodName: string, resource: string, params: seq<string>)
    requires methodName != "" && resource != "" && Upper(methodName) == "GET"
    ensures '/' in resource ==>
              Parse(methodName, resource, params) ==
              if ValidId(IdSegment(resource)) then Success(GetById(IdSegment(resource))) else Failure(NonNumericId)
    ensures '/' !in resource ==>
              Parse(methodName, resource, params) ==
              if resource == ProductsResource then Success(List) else Failure(InvalidListResource)
  {
  }

  lemma ParsePostBranch(methodName: string, resource: string, params: seq<string>)
    requires methodName != "" && resource != "" && Upper(methodName) == "POST"
    ensures Parse(methodName, resource, params) ==
              if resource != ProductsResource then Failure(InvalidCreateResource)
              else if !ParamsPresent(params) then Failure(MissingParameters)
              else if !ValidPrice(params[1]) then Failure(InvalidPrice)
              else Success(Create(NewDraft(params[0], params[1], params[2])))
  {
  }

  lemma ParseDeleteBranch(methodName: string, resource: string, params: seq<string>)
    requires methodName != "" && resource != "" && Upper(methodName) == "DELETE"
    ensures Parse(methodName, resource, params) ==
              if '/' !in resource then Failure(IdRequired)
              else if ValidId(IdSegment(resource)) then Success(Delete(IdSegment(resource)))
              else Failure(NonNumericId)
  {
  }

  // ------------------------------------------------------------- the errors

  /** A missing method or resource, and nothing else, gives the usage error. */
  lemma UsageErrorIff(methodName: string, resource: string, params: seq<string>)
    ensures Parse(methodName, resource, params) == Failure(Usage) <==> methodName == "" || resource == ""
  {
  }

  /**
   * A method that is none of GET, POST and DELETE in any letter case, and
   * only such a method, is refused as unsupported, under its upper-cased
   * spelling.
   */
  lemma UnsupportedMethodIff(methodName: string, resource: string, params: seq<string>)
    ensures var r := Parse(methodName, resource, params);
            r.Failure? && r.error.UnsupportedMethod? <==>
              methodName != "" && resource != ""
              && !SameIgnoringCase(methodName, "GET") && !SameIgnoringCase(methodName, "POST")
              && !SameIgnoringCase(methodName, "DELETE")
    ensures var r := Parse(methodName, resource, params);
            r.Failure? && r.error.UnsupportedMethod? ==> r.error.name == Upper(methodName)
  {
    UpperIffSameCase(methodName);
  }

  /** How a GET fails: a resource that is neither `products` nor has an id segment, or a bad id. */
  lemma GetErrors(methodName: string, resource: string, params: seq<string>)
    requires methodName != "" && resource != "" && SameIgnoringCase(methodName, "GET")
    ensures Parse(methodName, resource, params) == Failure(InvalidListResource) <==>
              ('/' !in resource && resource != ProductsResource)
    ensures Parse(methodName, resource, params) == Failure(NonNumericId) <==>
              ('/' in resource && !ValidId(IdSegment(resource)))
    ensures Parse(methodName, resource, params).Failure? ==>
              Parse(methodName, resource, params).error in {InvalidListResource, NonNumericId}
  {
    UpperIffSameCase(methodName);
  }

  /** How a POST fails: wrong resource, then missing parameters, then a bad price. */
  lemma PostErrors(methodName: string, resource: string, params: seq<string>)
    requires methodName != "" && resource != "" && SameIgnoringCase(methodName, "POST")
    ensures Parse(methodName, resource, params) == Failure(InvalidCreateResource) <==>
              (resource != ProductsResource)
    ensures Parse(methodName, resource, params) == Failure(MissingParameters) <==>
              (resource == ProductsResource && !ParamsPresent(params))
    ensures Parse(methodName, resource, params) == Failure(InvalidPrice) <==>
              (resource == ProductsResource && ParamsPresent(params) && !ValidPrice(params[1]))
    ensures Parse(methodName, resource, params).Failure? ==>
              Parse(methodName, resource, params).error in {InvalidCreateResource, MissingParameters, InvalidPrice}
  {
    UpperIffSameCase(methodName);
  }

  /** How a DELETE fails: no id segment, or a bad id. */
  lemma DeleteErrors(methodName: string, resource: string, params: seq<string>)
    requires methodName != "" && resource != "" && SameIgnoringCase(methodName, "DELETE")
    ensures Parse(methodName, resource, params) == Failure(IdRequired) <==> '/' !in resource
    ensures Parse(methodName, resource, params) == Failure(NonNumericId) <==>
              ('/' in resource && !ValidId(IdSegment(resource)))
    ensures Parse(methodName, resource, params).Failure? ==>
              Parse(methodName, resource, params).error in {IdRequired, NonNumericId}
  {
    UpperIffSameCase(methodName);
  }

  // ----------------------------------------------------- what is not looked at

  /** The method's letter case never matters. */
  lemma MethodCaseIgnored(m1: string, m2: string, resource: string, params: seq<string>)
    requires SameIgnoringCase(m1, m2)
    ensures Parse(m1, resource, params) == Parse(m2, resource, params)
  {
    SameIgnoringCaseUpper(m1, m2);
  }

  /**
   * The text before the first `/` is never checked: `x/15` routes exactly
   * like `products/15`, for every method.
   */
  lemma PrefixNotChecked(methodName: string, prefix: string, rest: string, params: seq<string>)
    requires '/' !in prefix
    ensures Parse(methodName, prefix + "/" + rest, params) == Parse(methodName, ProductsResource + "/" + rest, params)
  {
    assert '/' !in ProductsResource;
    IdSegmentOf(prefix, rest);
    IdSegmentOf(ProductsResource, rest);
    SameIdSegmentSameRoute(methodName, prefix + "/" + rest, ProductsResource + "/" + rest, params);
  }

  /** The id segment of a resource whose first `/` follows a slash-free prefix. */
  lemma IdSegmentOf(prefix: string, tail: string)
    requires '/' !in prefix
    ensures '/' in prefix + "/" + tail
    ensures IdSegment(prefix + "/" + tail) == Split(tail, '/')[0]
  {
    SplitAfterFree(prefix, tail, '/');
  }

  /** Two resources with an id segment route alike when the segments agree. */
  lemma SameIdSegmentSameRoute(methodName: string, r1: string, r2: string, params: seq<string>)
    requires '/' in r1 && '/' in r2 && IdSegment(r1) == IdSegment(r2)
    ensures Parse(methodName, r1, params) == Parse(methodName, r2, params)
  {
    if methodName != "" {
      assert r1 != "" && r2 != "";
      var httpMethod := Upper(methodName);
      if httpMethod == "GET" {
        ParseGetBranch(methodName, r1, params);
        ParseGetBranch(methodName, r2, params);
      } else if httpMethod == "POST" {
        assert '/' !in ProductsResource;
        ParsePostBranch(methodName, r1, params);
        ParsePostBranch(methodName, r2, params);
      } else if httpMethod == "DELETE" {
        ParseDeleteBranch(methodName, r1, params);
        ParseDeleteBranch(methodName, r2, params);
      }
    }
  }

  /** Segments after the id are ignored: `products/15/x` routes like `products/15`. */
  lemma LaterSegmentsIgnored(methodName: string, id: string, rest: string, params: seq<string>)
    requires '/' !in id
    ensures Parse(methodName, ProductsResource + "/" + id + "/" + rest, params)
            == Parse(methodName, ProductsResource + "/" + id, params)
  {
    var long, short := ProductsResource + "/" + id + "/" + rest, ProductsResource + "/" + id;
    assert long == ProductsResource + "/" + (id + "/" + rest);
    IdSegmentOf(ProductsResource, id + "/" + rest);
    IdSegmentOf(ProductsResource, id);
    SplitAfterFree(id, rest, '/');
    SameIdSegmentSameRoute(methodName, long, short, params);
  }

  /** Parameters after the third are ignored. */
  lemma ExtraParamsIgnored(methodName: string, resource: string, params: seq<string>)
    requires |params| >= 3
    ensures Parse(methodName, resource, params) == Parse(methodName, resource, params[..3])
  {
  }

  // -------------------------------------------------------- the calls it makes

  /**
   * A get-by-id or delete calls the item URL of the id segment, with no
   * body, under the method the command named.
   */
  lemma ItemCall(methodName: string, resource: string, params: seq<string>)
    requires Parse(methodName, resource, params).Success?
    requires Parse(methodName, resource, params).value.GetById? || Parse(methodName, resource, params).value.Delete?
    ensures '/' in resource
    ensures var d := Describe(Parse(methodName, resource, params).value);
            d.url == BaseUrl + "/products/" + IdSegment(resource) && d.body == None
            && (d.verb == GET <==> SameIgnoringCase(methodName, "GET"))
  {
    UpperIffSameCase(methodName);
    ItemUrl(Parse(methodName, resource, params).value);
  }

  /** The item URL, for either item operation. */
  lemma ItemUrl(r: Request)
    requires r.GetById? || r.Delete?
    ensures Describe(r).url == BaseUrl + "/products/" + r.id
    ensures Describe(r).body == None
    ensures Describe(r).verb == GET <==> r.GetById?
  {
    assert BaseUrl + Path(r) == BaseUrl + (ProductsPath + "/" + r.id);
  }

  /**
   * A create POSTs to the collection URL a body from which the receiver
   * reads back the three tokens verbatim, the derived description and the
   * placeholder image.
   */
  lemma CreateCall(methodName: string, resource: string, params: seq<string>)
    requires Parse(methodName, resource, params).Success? && Parse(methodName, resource, params).value.Create?
    ensures |params| >= 3
    ensures var d := Describe(Parse(methodName, resource, params).value);
            d.verb == POST && d.url == BaseUrl + "/products" && d.body.Some?
            && Json.DecodeObject(d.body.value) == Some([
                 ("title", params[0]), ("price", params[1]), ("category", params[2]),
                 ("description", "Producto " + params[0] + " creado"),
                 ("image", "http://via.placeholder.com/200")])
  {
    var draft := Parse(methodName, resource, params).value.draft;
    Json.DecodeEncode(Fields(draft));
  }
}
