/**
 * The HTTP requests the client can send: one per operation, each with its
 * endpoint under the fixed base URL, its HTTP method and, for a create, the
 * JSON body built from the new product's draft.
 */
module Requests {
  import opened Results
  import Json

  /** The remote service every endpoint path is appended to. */
  const BaseUrl: string := "https://fakestoreapi.com"

  /** The endpoint of the product collection. */
  const ProductsPath: string := "/products"

  /** The image every created product gets. */
  const PlaceholderImage: string := "http://via.placeholder.com/200"

  const DescriptionPrefix: string := "Producto "
  const DescriptionSuffix: string := " creado"

  /**
   * The product record sent on create. `price` is the token exactly as
   * typed: the parsed number is only used to validate it.
   */
  datatype Draft = Draft(title: string, price: string, category: string, description: string, image: string)

  /** The record built from the three create parameters. */
  function NewDraft(title: string, price: string, category: string): Draft
  {
    Draft(title, price, category, DescriptionPrefix + title + DescriptionSuffix, PlaceholderImage)
  }

  /** The title a generated description names, if it is one. */
  function TitleOfDescription(description: string): Option<string>
  {
    var n := |DescriptionPrefix| + |DescriptionSuffix|;
    if |description| >= n
       && description[..|DescriptionPrefix|] == DescriptionPrefix
       && description[|description| - |DescriptionSuffix|..] == DescriptionSuffix
    then Some(description[|DescriptionPrefix|..|description| - |DescriptionSuffix|])
    else None
  }

  /**
   * The draft keeps the three tokens verbatim, the image is the placeholder,
   * and the description names the title so exactly that the title can be
   * read back from it.
   */
  lemma NewDraftFields(title: string, price: string, category: string)
    ensures var d := NewDraft(title, price, category);
            d.title == title && d.price == price && d.category == category
            && d.image == PlaceholderImage
            && TitleOfDescription(d.description) == Some(title)
  {
    var desc := DescriptionPrefix + title + DescriptionSuffix;
    assert desc[..|DescriptionPrefix|] == DescriptionPrefix;
    assert desc[|desc| - |DescriptionSuffix|..] == DescriptionSuffix;
    assert desc[|DescriptionPrefix|..|desc| - |DescriptionSuffix|] == title;
  }

  /** What the router decided to do. */
  datatype Request =
    | List
    | GetById(id: string)
    | Create(draft: Draft)
    | Delete(id: string)

  datatype HttpMethod = GET | POST | DELETE

  /** The arguments handed to `fetch`: method, URL string and optional body. */
  datatype Descriptor = Descriptor(verb: HttpMethod, url: string, body: Option<string>)

  /** The endpoint path of each operation. */
  function Path(r: Request): string
  {
    match r
    case List => ProductsPath
    case GetById(id) => ProductsPath + "/" + id
    case Create(_) => ProductsPath
    case Delete(id) => ProductsPath + "/" + id
  }

  /** The members of the create body, in the order the record literal lists them. */
  function Fields(d: Draft): seq<(string, string)>
  {
    [("title", d.title), ("price", d.price), ("category", d.category),
     ("description", d.description), ("image", d.image)]
  }

  /** The create body: `JSON.stringify` of the draft. */
  function Body(d: Draft): string
  {
    Json.EncodeObject(Fields(d))
  }

  /**
   * The call each operation makes: list and get-by-id are GETs (the list
   * relies on `fetch`'s default method), create is a POST with a body,
   * delete is a DELETE; only a create carries a body.
   */
  function Describe(r: Request): (d: Descriptor)
    ensures d.body.Some? <==> r.Create?
    ensures d.verb == GET <==> r.List? || r.GetById?
    ensures d.verb == DELETE <==> r.Delete?
    ensures BaseUrl + ProductsPath <= d.url
  {
    var url := BaseUrl + Path(r);
    assert BaseUrl + Path(r) == (BaseUrl + ProductsPath) + Path(r)[|ProductsPath|..];
    match r
    case List => Descriptor(GET, url, None)
    case GetById(_) => Descriptor(GET, url, None)
    case Create(draft) => Descriptor(POST, url, Some(Body(draft)))
    case Delete(_) => Descriptor(DELETE, url, None)
  }

  /** A draft from the members of a decoded body, keys in the order the writer uses. */
  function DraftOfFields(fields: seq<(string, string)>): Option<Draft>
  {
    if |fields| == 5 && fields[0].0 == "title" && fields[1].0 == "price" && fields[2].0 == "category"
       && fields[3].0 == "description" && fields[4].0 == "image"
    then Some(Draft(fields[0].1, fields[1].1, fields[2].1, fields[3].1, fields[4].1))
    else None
  }

  /** Reads the operation back from the arguments handed to `fetch`. */
  function Recover(d: Descriptor): Option<Request>
  {
    var collection := BaseUrl + ProductsPath;
    var item := collection + "/";
    match d.verb
    case GET =>
      if d.body.Some? then None
      else if d.url == collection then Some(List)
      else if item <= d.url then Some(GetById(d.url[|item|..]))
      else None
    case POST =>
      if d.url != collection || d.body.None? then None
      else
        (match Json.DecodeObject(d.body.value)
         case None => None
         case Some(fields) =>
           match DraftOfFields(fields)
           case None => None
           case Some(draft) => Some(Create(draft)))
    case DELETE =>
      if d.body.None? && item <= d.url then Some(Delete(d.url[|item|..])) else None
  }

  /** A create is read back from its body. */
  lemma RecoverCreate(draft: Draft)
    ensures Recover(Describe(Create(draft))) == Some(Create(draft))
  {
    Json.DecodeEncode(Fields(draft));
    assert Describe(Create(draft)).body == Some(Json.EncodeObject(Fields(draft)));
  }

  /** The id is read back from the end of the item URL. */
  lemma RecoverItem(r: Request)
    requires r.GetById? || r.Delete?
    ensures Recover(Describe(r)) == Some(r)
  {
    var item := BaseUrl + ProductsPath + "/";
    assert Describe(r).url == item + r.id;
    assert |Describe(r).url| != |BaseUrl + ProductsPath|;
    assert (item + r.id)[|item|..] == r.id;
  }

  /**
   * Every request can be read back from the call it makes: the method and
   * URL identify the operation and id, and the body gives back the whole
   * draft, field for field.
   */
  lemma RecoverDescribe(r: Request)
    ensures Recover(Describe(r)) == Some(r)
  {
    match r
    case List =>
    case GetById(_) => RecoverItem(r);
    case Create(draft) => RecoverCreate(draft);
    case Delete(_) => RecoverItem(r);
  }

  /** Different requests never hand `fetch` the same arguments. */
  lemma DescribeInjective(r1: Request, r2: Request)
    requires Describe(r1) == Describe(r2)
    ensures r1 == r2
  {
    RecoverDescribe(r1);
    RecoverDescribe(r2);
  }
}
