// The Solebox checkout client: log in, read the product page, add the chosen
// size to the cart. The HTTP client is an oracle: every step takes the reply
// it would have received, and every request that reaches the transport is
// appended to the client's ghost `sent` log, so a step that throws before its request
// provably sends nothing.
module Solebox {

  import opened Wrappers
  import opened JsString
  import opened Transport
  import opened ProductPage

  const SiteEndpoint := "https://www.solebox.com/index.php"
  const LoginMarker := "dashboardLogout"
  const MobileUserAgent := "Mozilla/5.0 (iPhone; CPU iPhone OS 10_0_2 like Mac OS X) AppleWebKit/602.1.50 (KHTML, like Gecko) Mobile/14A456"

  datatype Customer = Customer(email: string, password: string)

  /** The product to buy: its page and the size key to select. */
  datatype Target = Target(url: string, size: string)

  datatype Config = Config(customer: Customer, product: Target, proxy: Option<string>)

  /** `_fetched.product`: the hidden-field values and the size map. */
  datatype FetchedProduct = FetchedProduct(anid: Option<string>, cnid: Option<string>, sizes: map<string, Variant>)

  /** The parts of the full cart response the client inspects. */
  datatype CartResponse = CartResponse(statusCode: int, location: Option<string>)

  /** Which throw ended a step. */
  datatype ClientError =
    | LoginRejected           // marker absent from the login page
    | NoParentClass           // a size anchor's parent has no class attribute
    | DetailsMissing          // addToCart before usable product details
    | OutOfStock(size: string)
    | CartRejected            // no redirect back to the product page
    | TransportFailure(reason: string)

  /** The message each thrown error carries. */
  function Message(e: ClientError): string
  {
    match e
    case LoginRejected => "username or password wrong. login was not successful"
    case NoParentClass => "Cannot read property 'indexOf' of undefined"
    case DetailsMissing => "make sure to call getProductDetails() before adding a product to cart"
    case OutOfStock(size) => "the selected size " + size + " is currently out of stock."
    case CartRejected => "there was an error trying to add the product to cart"
    case TransportFailure(reason) => reason
  }

  /** The out-of-stock error names the configured size in its message. */
  lemma OutOfStockMessageNamesSize(size: string)
    ensures Contains(Message(OutOfStock(size)), size)
  {
    var msg := Message(OutOfStock(size));
    assert msg[18..18 + |size|] == size;
    assert OccursAt(msg, size, 18);
  }

  /** The error a failed outcome carries, as the catch in `buyProduct` logs it. */
  function Logged(o: Outcome<ClientError>): Option<ClientError>
  {
    match o
    case Pass => None
    case Fail(e) => Some(e)
  }

  /** JavaScript truthiness of an optional string: present and non-empty. */
  predicate Truthy(v: Option<string>)
  {
    v.Some? && v.value != ""
  }

  // ---------------------------------------------------------------- login

  /** The login page shows the dashboard's logout link. */
  function LoginAccepted(body: string): (r: bool)
    ensures r <==> Contains(body, LoginMarker)
  {
    IndexOf(body, LoginMarker) != -1
  }

  function LoginForm(c: Customer): (f: Form)
    ensures DistinctKeys(f)
    ensures Lookup(f, "lgn_usr") == Some(Text(c.email))
    ensures Lookup(f, "lgn_pwd") == Some(Text(c.password))
    ensures Lookup(f, "fnc") == Some(Text("login_noredirect"))
  {
    var f := [("lang", Number(0)), ("listtype", Null), ("actcontrol", Text("account")),
              ("fnc", Text("login_noredirect")), ("cl", Text("account")), ("tpl", Null),
              ("oxloadid", Null), ("lgn_usr", Text(c.email)), ("lgn_pwd", Text(c.password))];
    LookupDistinct(f, 3);
    LookupDistinct(f, 7);
    LookupDistinct(f, 8);
    f
  }

  function LoginOptions(c: Customer): Options
  {
    Options(SiteEndpoint, Some("POST"), Some(LoginForm(c)), None, None, None)
  }

  /** How `login` ends for a given reply. */
  function LoginOutcome(reply: Reply<string>): (r: Outcome<ClientError>)
    ensures r == Pass <==> reply.Delivered? && Contains(reply.value, LoginMarker)
    ensures reply.Rejected? ==> r == Fail(TransportFailure(reply.reason))
    ensures reply.Delivered? && !Contains(reply.value, LoginMarker) ==> r == Fail(LoginRejected)
  {
    match reply
    case Rejected(reason) => Fail(TransportFailure(reason))
    case Delivered(body) => if LoginAccepted(body) then Pass else Fail(LoginRejected)
  }

  // ---------------------------------------------------------------- product details

  function ProductOptions(url: string): Options
  {
    Options(url, Some("GET"), None, None, None, None)
  }

  /** How `getProductDetails` ends for a given page. */
  function ProductOutcome(reply: Reply<Page>): (r: Result<FetchedProduct, ClientError>)
    ensures r.Ok? <==> reply.Delivered? && HasParentClasses(reply.value.anchors)
    ensures reply.Rejected? ==> r == Err(TransportFailure(reply.reason))
    ensures reply.Delivered? && !HasParentClasses(reply.value.anchors) ==> r == Err(NoParentClass)
    ensures r.Ok? ==> r.value.anid == reply.value.anid && r.value.cnid == reply.value.cnid
  {
    match reply
    case Rejected(reason) => Err(TransportFailure(reason))
    case Delivered(page) =>
      if HasParentClasses(page.anchors)
      then Ok(FetchedProduct(page.anid, page.cnid, SizeMap(page.anchors)))
      else Err(NoParentClass)
  }

  /** Every size label on the page becomes a key of the stored map, and each
      entry's stock flag is that of the last anchor carrying the label. */
  lemma FetchedSizesFollowAnchors(page: Page, k: string)
    requires ProductOutcome(Delivered(page)).Ok?
    ensures var sizes := ProductOutcome(Delivered(page)).value.sizes;
      k in sizes <==> exists i :: 0 <= i < |page.anchors| && page.anchors[i].sizeLabel == k
    ensures var sizes := ProductOutcome(Delivered(page)).value.sizes;
      forall i :: 0 <= i < |page.anchors| && page.anchors[i].sizeLabel == k
        && (forall j :: i < j < |page.anchors| ==> page.anchors[j].sizeLabel != k)
        ==> sizes[k] == VariantOf(page.anchors[i])
  {
    SizeMapKeys(page.anchors, k);
    forall i | 0 <= i < |page.anchors| && page.anchors[i].sizeLabel == k
      && (forall j :: i < j < |page.anchors| ==> page.anchors[j].sizeLabel != k)
      ensures SizeMap(page.anchors)[k] == VariantOf(page.anchors[i])
    {
      SizeMapLastWins(page.anchors, i);
    }
  }

  // ---------------------------------------------------------------- add to cart

  /** The stored details pass the first gate of `addToCart` for `size`. */
  predicate DetailsReady(fetched: Option<FetchedProduct>, size: string)
  {
    fetched.Some? && Truthy(fetched.value.cnid) && Truthy(fetched.value.anid) && size in fetched.value.sizes
  }

  /** What the cart request is built from once both gates pass. */
  datatype Selection = Selection(anid: string, cnid: string, variant: Variant)

  /** The two gates of `addToCart`, both checked before any request. */
  function SelectVariant(fetched: Option<FetchedProduct>, size: string): (r: Result<Selection, ClientError>)
    ensures r.Ok? <==> DetailsReady(fetched, size) && fetched.value.sizes[size].inStock
    ensures !DetailsReady(fetched, size) ==> r == Err(DetailsMissing)
    ensures DetailsReady(fetched, size) && !fetched.value.sizes[size].inStock ==> r == Err(OutOfStock(size))
    ensures r.Ok? ==> r.value == Selection(fetched.value.anid.value, fetched.value.cnid.value, fetched.value.sizes[size])
  {
    if !DetailsReady(fetched, size) then Err(DetailsMissing)
    else
      var p := fetched.value;
      if !p.sizes[size].inStock then Err(OutOfStock(size))
      else Ok(Selection(p.anid.value, p.cnid.value, p.sizes[size]))
  }

  /** A page without usable hidden fields is stored without complaint; the
      missing identifiers only surface as the first gate of `addToCart`. */
  lemma MissingIdsSurfaceAtCart(page: Page, size: string)
    requires HasParentClasses(page.anchors)
    requires !Truthy(page.anid) || !Truthy(page.cnid)
    ensures ProductOutcome(Delivered(page)).Ok?
    ensures SelectVariant(Some(ProductOutcome(Delivered(page)).value), size) == Err(DetailsMissing)
  {
  }

  /** The `aid` form value: the anchor's id, `undefined` when it had none. */
  function IdValue(id: Option<string>): FormValue
  {
    match id
    case None => Undefined
    case Some(s) => Text(s)
  }

  /** The cart form (its key `lisstype` is spelled as the site receives it). */
  function CartForm(sel: Selection): (f: Form)
    ensures DistinctKeys(f)
    ensures Lookup(f, "aid") == Some(IdValue(sel.variant.id))
    ensures Lookup(f, "anid") == Some(Text(sel.anid))
    ensures Lookup(f, "parentid") == Some(Text(sel.anid))
    ensures Lookup(f, "cnid") == Some(Text(sel.cnid))
    ensures Lookup(f, "fnc") == Some(Text("tobasket"))
  {
    var f := [("lang", Number(0)), ("cnid", Text(sel.cnid)), ("lisstype", Text("list")),
              ("actcontrol", Text("details")), ("cl", Text("details")), ("aid", IdValue(sel.variant.id)),
              ("anid", Text(sel.anid)), ("parentid", Text(sel.anid)), ("panid", Null),
              ("fnc", Text("tobasket")), ("am", Number(1))];
    LookupDistinct(f, 1);
    LookupDistinct(f, 5);
    LookupDistinct(f, 6);
    LookupDistinct(f, 7);
    LookupDistinct(f, 9);
    f
  }

  /** The cart request: no automatic non-2xx rejection, full response wanted. */
  function CartOptions(sel: Selection): Options
  {
    Options(SiteEndpoint, Some("POST"), Some(CartForm(sel)), None, Some(false), Some(true))
  }

  /** The product detail page the site redirects to after adding to the cart. */
  function CartRedirect(cnid: string, anid: string): string
  {
    "https://www.solebox.com/index.php?cl=details&cnid=" + cnid + "&anid=" + anid + "&"
  }

  /** The part of `s` before the first `sep`: how a query string is cut at '&'. */
  function Before(s: string, sep: char): string
  {
    if s == [] || s[0] == sep then [] else [s[0]] + Before(s[1..], sep)
  }

  lemma {:induction false} BeforeSeparator(head: string, sep: char, tail: string)
    requires sep !in head
    ensures Before(head + [sep] + tail, sep) == head
  {
    if head != [] {
      assert (head + [sep] + tail)[1..] == head[1..] + [sep] + tail;
      BeforeSeparator(head[1..], sep, tail);
    }
  }

  /** While `cnid` holds no '&', the redirect URL names exactly one (cnid, anid)
      pair, so matching it confirms the very product that was fetched. */
  lemma {:induction false} RedirectIdentifiesProduct(cnid: string, anid: string, cnid': string, anid': string)
    requires '&' !in cnid && '&' !in cnid'
    ensures CartRedirect(cnid, anid) == CartRedirect(cnid', anid') <==> cnid == cnid' && anid == anid'
  {
    var prefix := "https://www.solebox.com/index.php?cl=details&cnid=";
    var u, u' := CartRedirect(cnid, anid), CartRedirect(cnid', anid');
    if u == u' {
      var p := |prefix|;
      var rest, rest' := u[p..], u'[p..];
      assert rest == cnid + ['&'] + ("anid=" + anid + "&");
      assert rest' == cnid' + ['&'] + ("anid=" + anid' + "&");
      BeforeSeparator(cnid, '&', "anid=" + anid + "&");
      BeforeSeparator(cnid', '&', "anid=" + anid' + "&");
      assert cnid == cnid';
      var q := |cnid| + 6;
      assert anid == rest[q..|rest| - 1] == rest'[q..|rest'| - 1] == anid';
    }
  }

  /** How `addToCart` ends once its request went out. */
  function CartOutcome(sel: Selection, reply: Reply<CartResponse>): (r: Outcome<ClientError>)
    ensures r == Pass <==> reply.Delivered? && reply.value.statusCode == 302
                           && reply.value.location == Some(CartRedirect(sel.cnid, sel.anid))
    ensures reply.Rejected? ==> r == Fail(TransportFailure(reply.reason))
    ensures reply.Delivered? && r != Pass ==> r == Fail(CartRejected)
  {
    match reply
    case Rejected(reason) => Fail(TransportFailure(reason))
    case Delivered(resp) =>
      if resp.statusCode != 302 || resp.location != Some(CartRedirect(sel.cnid, sel.anid))
      then Fail(CartRejected)
      else Pass
  }

  // ---------------------------------------------------------------- the client

  class SoleboxClient {
    const customer: Customer
    const product: Target
    const proxy: Option<string>
    const userAgent: string
    /** `_fetched.product`. */
    var fetched: Option<FetchedProduct>
    /** Every request handed to the HTTP client, in order. */
    ghost var sent: seq<Settings>

    constructor (config: Config)
      ensures customer == config.customer && product == config.product && proxy == config.proxy
      ensures userAgent == MobileUserAgent
      ensures fetched == None && sent == []
    {
      customer := config.customer;
      product := config.product;
      proxy := config.proxy;
      userAgent := MobileUserAgent;
      fetched := None;
      sent := [];
    }

    /** The settings `_makeRequest` hands to the HTTP client for `options`. */
    function RequestFor(options: Options): Settings
    {
      Settings(options.uri, DefaultMethod(options.verb), proxy,
               MergedHeaders(BaseHeaders(userAgent), options.headers),
               options.form, options.simple, options.fullResponse)
    }

    /** `_makeRequest`: default the method, merge headers, attach the proxy, send. */
    method MakeRequest(options: Options) returns (settings: Settings)
      modifies this`sent
      ensures settings == RequestFor(options)
      ensures settings.proxy == proxy
      ensures sent == old(sent) + [settings]
    {
      var verb := DefaultMethod(options.verb);
      var headers := MergeHeaders(BaseHeaders(userAgent), options.headers);
      settings := Settings(options.uri, verb, proxy, headers, options.form, options.simple, options.fullResponse);
      sent := sent + [settings];
    }

    method Login(reply: Reply<string>) returns (r: Outcome<ClientError>)
      modifies this`sent
      ensures sent == old(sent) + [RequestFor(LoginOptions(customer))]
      ensures r == LoginOutcome(reply)
    {
      var _ := MakeRequest(LoginOptions(customer));
      match reply {
        case Rejected(reason) =>
          r := Fail(TransportFailure(reason));
        case Delivered(body) =>
          if IndexOf(body, LoginMarker) == -1 {
            r := Fail(LoginRejected);
          } else {
            r := Pass;
          }
      }
    }

    /** `getProductDetails`; `inStockCount` is the number it logs. */
    method GetProductDetails(reply: Reply<Page>) returns (r: Result<FetchedProduct, ClientError>, inStockCount: nat)
      modifies this`sent, this`fetched
      ensures sent == old(sent) + [RequestFor(ProductOptions(product.url))]
      ensures r == ProductOutcome(reply)
      ensures r.Ok? ==> fetched == Some(r.value) && inStockCount == CountInStock(reply.value.anchors)
      ensures r.Err? ==> fetched == old(fetched)
    {
      var _ := MakeRequest(ProductOptions(product.url));
      inStockCount := 0;
      match reply {
        case Rejected(reason) =>
          r := Err(TransportFailure(reason));
        case Delivered(page) =>
          var scan := ExtractSizes(page.anchors);
          match scan {
            case Err(_) =>
              r := Err(NoParentClass);
            case Ok(s) =>
              inStockCount := s.inStockCount;
              var p := FetchedProduct(page.anid, page.cnid, s.sizes);
              fetched := Some(p);
              r := Ok(p);
          }
      }
    }

    /** `addToCart`: both gates, then the cart request and the redirect check. */
    method AddToCart(reply: Reply<CartResponse>) returns (r: Outcome<ClientError>)
      modifies this`sent
      ensures var gate := SelectVariant(fetched, product.size);
        && (gate.Err? ==> r == Fail(gate.error) && sent == old(sent))
        && (gate.Ok? ==> r == CartOutcome(gate.value, reply)
                         && sent == old(sent) + [RequestFor(CartOptions(gate.value))])
    {
      var size := product.size;
      if fetched.None? || !Truthy(fetched.value.cnid) || !Truthy(fetched.value.anid) || size !in fetched.value.sizes {
        return Fail(DetailsMissing);
      }
      var p := fetched.value;
      if !p.sizes[size].inStock {
        return Fail(OutOfStock(size));
      }
      var sel := Selection(p.anid.value, p.cnid.value, p.sizes[size]);
      var _ := MakeRequest(CartOptions(sel));
      match reply {
        case Rejected(reason) =>
          r := Fail(TransportFailure(reason));
        case Delivered(resp) =>
          if resp.statusCode != 302 || resp.location != Some(CartRedirect(p.cnid.value, p.anid.value)) {
            r := Fail(CartRejected);
          } else {
            r := Pass;
          }
      }
    }

    /** `buyProduct`: the three steps in order; the first failure stops the
        rest and is the one error logged. */
    method BuyProduct(loginReply: Reply<string>, pageReply: Reply<Page>, cartReply: Reply<CartResponse>)
      returns (logged: Option<ClientError>)
      modifies this`sent, this`fetched
      ensures var login := RequestFor(LoginOptions(customer));
        LoginOutcome(loginReply).Fail? ==>
          && logged == Some(LoginOutcome(loginReply).error)
          && sent == old(sent) + [login] && fetched == old(fetched)
      ensures var login, details := RequestFor(LoginOptions(customer)), RequestFor(ProductOptions(product.url));
        LoginOutcome(loginReply).Pass? && ProductOutcome(pageReply).Err? ==>
          && logged == Some(ProductOutcome(pageReply).error)
          && sent == old(sent) + [login, details] && fetched == old(fetched)
      ensures var login, details := RequestFor(LoginOptions(customer)), RequestFor(ProductOptions(product.url));
        LoginOutcome(loginReply).Pass? && ProductOutcome(pageReply).Ok? ==>
          && fetched == Some(ProductOutcome(pageReply).value)
          && var gate := SelectVariant(fetched, product.size);
          && (gate.Err? ==> logged == Some(gate.error) && sent == old(sent) + [login, details])
          && (gate.Ok? ==> logged == Logged(CartOutcome(gate.value, cartReply))
                           && sent == old(sent) + [login, details, RequestFor(CartOptions(gate.value))])
    {
      var l := Login(loginReply);
      if l.Fail? {
        return Some(l.error);
      }
      var d, _ := GetProductDetails(pageReply);
      if d.Err? {
        return Some(d.error);
      }
      var c := AddToCart(cartReply);
      logged := Logged(c);
    }
  }

  /** The purchase on a one-size page, part one: anid "A1", cnid "C1" and one
      in-stock anchor "v42" for size "42" are stored as they are, and the
      stored details pass both gates of `addToCart`. */
  lemma OneSizePageFetched()
    ensures var page := Page(Some("A1"), Some("C1"), [Anchor(Some("v42"), "42", Some("size"))]);
      var fetched := ProductOutcome(Delivered(page));
      && fetched == Ok(FetchedProduct(Some("A1"), Some("C1"), map["42" := Variant(true, Some("v42"))]))
      && SelectVariant(Some(fetched.value), "42") == Ok(Selection("A1", "C1", Variant(true, Some("v42"))))
  {
  }

  /** Part two: the cart form carries the anchor id as `aid` and the product id
      as `anid` and `parentid`; the redirect to
      `...cl=details&cnid=C1&anid=A1&` with status 302 completes the purchase,
      and the same location with status 200 is a cart failure. */
  lemma OneSizeCartAdded()
    ensures var sel := Selection("A1", "C1", Variant(true, Some("v42")));
      var location := "https://www.solebox.com/index.php?cl=details&cnid=C1&anid=A1&";
      && Lookup(CartForm(sel), "aid") == Some(Text("v42"))
      && Lookup(CartForm(sel), "anid") == Lookup(CartForm(sel), "parentid") == Some(Text("A1"))
      && CartOutcome(sel, Delivered(CartResponse(302, Some(location)))) == Pass
      && CartOutcome(sel, Delivered(CartResponse(200, Some(location)))) == Fail(CartRejected)
  {
    assert CartRedirect("C1", "A1") == "https://www.solebox.com/index.php?cl=details&cnid=C1&anid=A1&";
  }
}
