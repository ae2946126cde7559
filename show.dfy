/// The ticketing ("show") client: the catalogue of a show's sessions and
/// tickets, the buyer records of an account, the simulated click and the
/// payload of an order. Responses of the web API are parameters; a Python
/// exception is an `Err` carrying its kind.
module Show {
  import opened Common
  import opened Json

  /// Raised by a credential without a session cookie.
  const NO_SESSDATA: string := "CredentialNoSessdataException"

  /// Building one value per element, in order; the first element that
  /// fails stops the loop with its error.
  function CollectAll<T>(xs: seq<Json>, f: Json -> Result<T>): (r: Result<seq<T>>)
    ensures r.Ok? <==> forall i :: 0 <= i < |xs| ==> f(xs[i]).Ok?
    ensures r.Ok? ==> |r.value| == |xs| && forall i :: 0 <= i < |xs| ==> f(xs[i]) == Ok(r.value[i])
    ensures r.Err? ==> exists i :: 0 <= i < |xs| && f(xs[i]) == Err(r.error)
                                   && forall j :: 0 <= j < i ==> f(xs[j]).Ok?
    decreases |xs|
  {
    if |xs| == 0 then Ok([])
    else
      var init, last := xs[..|xs| - 1], xs[|xs| - 1];
      assert forall i :: 0 <= i < |init| ==> init[i] == xs[i];
      match CollectAll(init, f)
      case Err(e) => Err(e)
      case Ok(vs) =>
        match f(last)
        case Err(e) =>
          assert f(xs[|xs| - 1]) == Err(e);
          Err(e)
        case Ok(v) =>
          assert forall i :: 0 <= i < |vs| ==> (vs + [v])[i] == vs[i];
          Ok(vs + [v])
  }

  /// Once every element before `i` succeeds and element `i` fails, the
  /// whole loop fails with element `i`'s error.
  lemma {:induction false} CollectFirstError<T>(xs: seq<Json>, f: Json -> Result<T>, i: nat)
    requires i < |xs| && CollectAll(xs[..i], f).Ok? && f(xs[i]).Err?
    ensures CollectAll(xs, f) == Err(f(xs[i]).error)
  {
    var r := CollectAll(xs, f);
    assert forall j :: 0 <= j < i ==> f(xs[j]).Ok? by {
      forall j | 0 <= j < i
        ensures f(xs[j]).Ok?
      {
        assert xs[..i][j] == xs[j];
      }
    }
    assert !r.Ok?;
    var k :| 0 <= k < |xs| && f(xs[k]) == Err(r.error) && forall j :: 0 <= j < k ==> f(xs[j]).Ok?;
    assert k == i;
  }

  /// One more element that succeeds extends the collected prefix.
  lemma CollectStep<T>(xs: seq<Json>, f: Json -> Result<T>, i: nat, vs: seq<T>, v: T)
    requires i < |xs| && CollectAll(xs[..i], f) == Ok(vs) && f(xs[i]) == Ok(v)
    ensures CollectAll(xs[..i + 1], f) == Ok(vs + [v])
  {
    assert xs[..i + 1][..i] == xs[..i];
  }

  // ---------------------------------------------------------------------
  // Sessions and tickets
  // ---------------------------------------------------------------------

  /// `Ticket`: the values are copied from the catalogue as they are.
  datatype Ticket = Ticket(id: Json, price: Json, desc: Json, saleStart: Json, saleEnd: Json)

  /// `Session`.
  datatype Session = Session(id: Json, startTime: Json, formattedTime: Json, ticketList: seq<Ticket>)

  const TICKET_KEYS: set<string> := {"id", "price", "desc", "sale_start", "sale_end"}

  /// A ticket from one `ticket_list` element, its keys read in order.
  function TicketFrom(t: Json): (r: Result<Ticket>)
    ensures r.Ok? <==> t.JObject? && TICKET_KEYS <= t.fields.Keys
    ensures r.Ok? ==> r.value == Ticket(t.fields["id"], t.fields["price"], t.fields["desc"],
                                        t.fields["sale_start"], t.fields["sale_end"])
  {
    if !t.JObject? then Err(TYPE_ERROR)
    else if "id" !in t.fields then Err(KeyError("id"))
    else if "price" !in t.fields then Err(KeyError("price"))
    else if "desc" !in t.fields then Err(KeyError("desc"))
    else if "sale_start" !in t.fields then Err(KeyError("sale_start"))
    else if "sale_end" !in t.fields then Err(KeyError("sale_end"))
    else Ok(Ticket(t.fields["id"], t.fields["price"], t.fields["desc"], t.fields["sale_start"], t.fields["sale_end"]))
  }

  /// The session of one `screen_list` element before its tickets are
  /// added: `id`, `start_time` and `name` are read first, then the ticket
  /// list is looked up.
  function SessionHead(v: Json): (r: Result<(Session, seq<Json>)>)
    ensures r.Ok? ==> v.JObject? && {"id", "start_time", "name", "ticket_list"} <= v.fields.Keys
                      && v.fields["ticket_list"].JArray?
                      && r.value.0 == Session(v.fields["id"], v.fields["start_time"], v.fields["name"], [])
                      && r.value.1 == v.fields["ticket_list"].items
  {
    if !v.JObject? then Err(TYPE_ERROR)
    else if "id" !in v.fields then Err(KeyError("id"))
    else if "start_time" !in v.fields then Err(KeyError("start_time"))
    else if "name" !in v.fields then Err(KeyError("name"))
    else if "ticket_list" !in v.fields then Err(KeyError("ticket_list"))
    else
      match Items(v.fields["ticket_list"])
      case Err(e) => Err(e)
      case Ok(ts) => Ok((Session(v.fields["id"], v.fields["start_time"], v.fields["name"], []), ts))
  }

  /// The session of one `screen_list` element with all its tickets.
  function SessionFrom(v: Json): (r: Result<Session>)
  {
    match SessionHead(v)
    case Err(e) => Err(e)
    case Ok((s, ts)) =>
      match CollectAll(ts, TicketFrom)
      case Err(e) => Err(e)
      case Ok(tickets) => Ok(s.(ticketList := tickets))
  }

  /// What `get_available_sessions` returns for a project's information.
  function AvailableSessions(projectInfo: Json): Result<seq<Session>>
  {
    match Field(projectInfo, "screen_list")
    case Err(e) => Err(e)
    case Ok(list) =>
      match Items(list)
      case Err(e) => Err(e)
      case Ok(screens) => CollectAll(screens, SessionFrom)
  }

  /// `get_available_sessions`: one session per screen, each holding one
  /// ticket per element of its ticket list, in order.
  method GetAvailableSessions(projectInfo: Json) returns (r: Result<seq<Session>>)
    ensures r == AvailableSessions(projectInfo)
  {
    var list := Field(projectInfo, "screen_list");
    if list.Err? {
      return Err(list.error);
    }
    var screens := Items(list.value);
    if screens.Err? {
      return Err(screens.error);
    }
    var vs := screens.value;
    var rtn: seq<Session> := [];
    for i := 0 to |vs|
      invariant CollectAll(vs[..i], SessionFrom) == Ok(rtn)
    {
      var head := SessionHead(vs[i]);
      if head.Err? {
        CollectFirstError(vs, SessionFrom, i);
        return Err(head.error);
      }
      var sess := head.value.0;
      var ts := head.value.1;
      for j := 0 to |ts|
        invariant sess == head.value.0.(ticketList := sess.ticketList)
        invariant CollectAll(ts[..j], TicketFrom) == Ok(sess.ticketList)
      {
        var t := TicketFrom(ts[j]);
        if t.Err? {
          CollectFirstError(ts, TicketFrom, j);
          CollectFirstError(vs, SessionFrom, i);
          return Err(t.error);
        }
        CollectStep(ts, TicketFrom, j, sess.ticketList, t.value);
        sess := sess.(ticketList := sess.ticketList + [t.value]);
      }
      assert ts[..|ts|] == ts;
      CollectStep(vs, SessionFrom, i, rtn, sess);
      rtn := rtn + [sess];
    }
    assert vs[..|vs|] == vs;
    return Ok(rtn);
  }

  /// The sessions mirror the catalogue: one per screen with its id, start
  /// time and name, and one ticket per ticket-list element with its id,
  /// price, description and sale window.
  lemma SessionsMirrorCatalogue(projectInfo: Json, i: nat, j: nat)
    requires AvailableSessions(projectInfo).Ok?
    ensures projectInfo.JObject? && "screen_list" in projectInfo.fields
    ensures var screens := projectInfo.fields["screen_list"].items;
            var sessions := AvailableSessions(projectInfo).value;
            |sessions| == |screens| &&
            (i < |screens| ==>
              var v := screens[i];
              v.JObject? && sessions[i].id == v.fields["id"] && sessions[i].startTime == v.fields["start_time"]
              && sessions[i].formattedTime == v.fields["name"]
              && |sessions[i].ticketList| == |v.fields["ticket_list"].items|
              && (j < |sessions[i].ticketList| ==>
                    TicketFrom(v.fields["ticket_list"].items[j]) == Ok(sessions[i].ticketList[j])))
  {
    var screens := projectInfo.fields["screen_list"].items;
    if i < |screens| {
      var s := SessionFrom(screens[i]);
      assert s.Ok?;
      var ts := SessionHead(screens[i]).value.1;
      assert CollectAll(ts, TicketFrom).Ok?;
    }
  }

  // ---------------------------------------------------------------------
  // Buyer records
  // ---------------------------------------------------------------------

  /// `BuyerInfo`: a dataclass whose constructor takes exactly its fields
  /// by name; the last two default to `True`.
  datatype BuyerInfo = BuyerInfo(
    id: Json, uid: Json, accountChannel: Json, personalId: Json, name: Json,
    idCardFront: Json, idCardBack: Json, isDefault: Json, tel: Json, errorCode: Json,
    idType: Json, verifyStatus: Json, accountIdentifier: Json,
    isBuyerInfoVerified: Json, isBuyerValid: Json)

  const REQUIRED_BUYER_KEYS: set<string> :=
    {"id", "uid", "account_channel", "personal_id", "name", "id_card_front", "id_card_back",
     "is_default", "tel", "error_code", "id_type", "verify_status", "accountId"}
  const DEFAULTED_BUYER_KEYS: set<string> := {"isBuyerInfoVerified", "isBuyerValid"}

  /// `BuyerInfo(**v)`: a `TypeError` for anything but an object holding
  /// every required key and no unknown one.
  function BuyerInfoFrom(v: Json): (r: Result<BuyerInfo>)
    ensures r.Ok? <==> v.JObject? && REQUIRED_BUYER_KEYS <= v.fields.Keys
                       && v.fields.Keys <= REQUIRED_BUYER_KEYS + DEFAULTED_BUYER_KEYS
    ensures r.Err? ==> r.error == TYPE_ERROR
  {
    if v.JObject? && REQUIRED_BUYER_KEYS <= v.fields.Keys
       && v.fields.Keys <= REQUIRED_BUYER_KEYS + DEFAULTED_BUYER_KEYS then
      var f := v.fields;
      Ok(BuyerInfo(f["id"], f["uid"], f["account_channel"], f["personal_id"], f["name"],
                   f["id_card_front"], f["id_card_back"], f["is_default"], f["tel"], f["error_code"],
                   f["id_type"], f["verify_status"], f["accountId"],
                   if "isBuyerInfoVerified" in f then f["isBuyerInfoVerified"] else JBool(true),
                   if "isBuyerValid" in f then f["isBuyerValid"] else JBool(true)))
    else Err(TYPE_ERROR)
  }

  /// `buyer.__dict__`: every field under its declared name.
  function BuyerDict(b: BuyerInfo): (r: map<string, Json>)
    ensures r.Keys == REQUIRED_BUYER_KEYS + DEFAULTED_BUYER_KEYS
  {
    map["id" := b.id, "uid" := b.uid, "account_channel" := b.accountChannel,
        "personal_id" := b.personalId, "name" := b.name, "id_card_front" := b.idCardFront,
        "id_card_back" := b.idCardBack, "is_default" := b.isDefault, "tel" := b.tel,
        "error_code" := b.errorCode, "id_type" := b.idType, "verify_status" := b.verifyStatus,
        "accountId" := b.accountIdentifier, "isBuyerInfoVerified" := b.isBuyerInfoVerified,
        "isBuyerValid" := b.isBuyerValid]
  }

  /// The record an order sends rebuilds the same buyer.
  lemma BuyerDictRoundTrip(b: BuyerInfo)
    ensures BuyerInfoFrom(JObject(BuyerDict(b))) == Ok(b)
  {
  }

  /// `get_all_buyer_info_obj`: the credential is checked before the
  /// request; then one buyer per element of the response's `list`.
  function AllBuyerInfo(hasSessdata: bool, response: Json): (r: Result<seq<BuyerInfo>>)
    ensures !hasSessdata ==> r == Err(NO_SESSDATA)
    ensures r.Ok? ==> response.JObject? && "list" in response.fields && response.fields["list"].JArray?
                      && |r.value| == |response.fields["list"].items|
                      && forall i :: 0 <= i < |r.value| ==>
                           BuyerInfoFrom(response.fields["list"].items[i]) == Ok(r.value[i])
  {
    if !hasSessdata then Err(NO_SESSDATA)
    else
      match Field(response, "list")
      case Err(e) => Err(e)
      case Ok(list) =>
        match Items(list)
        case Err(e) => Err(e)
        case Ok(records) => CollectAll(records, BuyerInfoFrom)
  }

  // ---------------------------------------------------------------------
  // The simulated click
  // ---------------------------------------------------------------------

  datatype ClickPosition = ClickPosition(x: int, y: int, origin: int, now: int)

  /// Where and when a plausible click on a 1920x1080 screen lands.
  predicate Plausible(c: ClickPosition)
  {
    1320 <= c.x <= 1330 && 880 <= c.y <= 890 && 5000 <= c.now - c.origin <= 10000
  }

  /// `generate_clickPosition`: the three random draws and the clock in
  /// milliseconds are parameters, each draw within its `randint` range.
  function GenerateClickPosition(xDraw: int, yDraw: int, clockMillis: int, delayDraw: int): (r: ClickPosition)
    requires 1320 <= xDraw <= 1330 && 880 <= yDraw <= 890 && 5000 <= delayDraw <= 10000
    ensures Plausible(r) && r.origin == clockMillis
  {
    ClickPosition(xDraw, yDraw, clockMillis, clockMillis + delayDraw)
  }

  /// Every plausible click is one the generator can draw.
  lemma EveryPlausibleClickDrawn(c: ClickPosition)
    requires Plausible(c)
    ensures GenerateClickPosition(c.x, c.y, c.origin, c.now - c.origin) == c
  {
  }

  /// The click as the dictionary that is serialised.
  function ClickJson(c: ClickPosition): Json
  {
    JObject(map["x" := JInt(c.x), "y" := JInt(c.y), "origin" := JInt(c.origin), "now" := JInt(c.now)])
  }

  // ---------------------------------------------------------------------
  // The order payload
  // ---------------------------------------------------------------------

  /// `OrderTicket`: the credential is reduced to whether it has a session
  /// cookie.
  datatype OrderTicket = OrderTicket(hasSessdata: bool, targetBuyer: BuyerInfo, projectId: int,
                                     session: Session, ticket: Ticket)

  const ONE_PERSON_ONE_ID: string := "一人一证"
  const ONE_ORDER_ONE_ID: string := "一单一证"

  /// Python's `pattern in content`: a substring of a string, an element
  /// of a list, a key of a dictionary; a `TypeError` on anything else.
  function PyIn(pattern: string, content: Json): (r: Result<bool>)
    ensures content.JString? ==> r == Ok(Contains(content.s, pattern))
  {
    match content
    case JString(s) => Ok(Contains(s, pattern))
    case JArray(items) => Ok(JString(pattern) in items)
    case JObject(fields) => Ok(pattern in fields)
    case _ => Err(TYPE_ERROR)
  }

  /// Whether one detail of the show asks for an identity document.
  function DetailRequiresId(detail: Json): Result<bool>
  {
    match Field(detail, "content")
    case Err(e) => Err(e)
    case Ok(content) =>
      match PyIn(ONE_PERSON_ONE_ID, content)
      case Err(e) => Err(e)
      case Ok(true) => Ok(true)
      case Ok(false) => PyIn(ONE_ORDER_ONE_ID, content)
  }

  /// The detail scan: it stops at the first detail that asks for an
  /// identity document, so later details are not read.
  function RequiresId(details: seq<Json>): (r: Result<bool>)
    ensures r == Ok(true) <==> exists i :: 0 <= i < |details| && DetailRequiresId(details[i]) == Ok(true)
                                          && forall j :: 0 <= j < i ==> DetailRequiresId(details[j]) == Ok(false)
    ensures r == Ok(false) <==> forall i :: 0 <= i < |details| ==> DetailRequiresId(details[i]) == Ok(false)
    decreases |details|
  {
    if |details| == 0 then Ok(false)
    else
      match DetailRequiresId(details[0])
      case Err(e) => Err(e)
      case Ok(true) => Ok(true)
      case Ok(false) =>
        var rest := RequiresId(details[1..]);
        assert forall i :: 0 < i < |details| ==> details[i] == details[1..][i - 1];
        rest
  }

  /// The module scan: the first element whose `module` is `base_info`.
  function FindBaseInfo(elements: seq<Json>): (r: Result<Option<Json>>)
    ensures r.Ok? && r.value.Some? ==> r.value.value in elements && Field(r.value.value, "module") == Ok(JString("base_info"))
    ensures r == Ok(None) <==> forall i :: 0 <= i < |elements| ==>
                                 Field(elements[i], "module").Ok? && Field(elements[i], "module") != Ok(JString("base_info"))
    ensures r.Ok? && r.value.Some? ==>
              exists i :: 0 <= i < |elements| && elements[i] == r.value.value
                          && forall j :: 0 <= j < i ==> Field(elements[j], "module").Ok?
                                                          && Field(elements[j], "module") != Ok(JString("base_info"))
    ensures r.Err? ==>
              exists i :: 0 <= i < |elements| && Field(elements[i], "module") == Err(r.error)
                          && forall j :: 0 <= j < i ==> Field(elements[j], "module").Ok?
                                                          && Field(elements[j], "module") != Ok(JString("base_info"))
    decreases |elements|
  {
    if |elements| == 0 then Ok(None)
    else
      match Field(elements[0], "module")
      case Err(e) => Err(e)
      case Ok(m) =>
        if m == JString("base_info") then Ok(Some(elements[0]))
        else
          var rest := FindBaseInfo(elements[1..]);
          assert forall i :: 0 < i < |elements| ==> elements[i] == elements[1..][i - 1];
          assert rest.Ok? && rest.value.Some? ==>
                   exists i :: 0 <= i < |elements[1..]| && elements[1..][i] == rest.value.value && elements[i + 1] == rest.value.value
                               && forall j :: 0 <= j < i ==> Field(elements[1..][j], "module").Ok?
                                                               && Field(elements[1..][j], "module") != Ok(JString("base_info"));
          assert rest.Err? ==>
                   exists i :: 0 <= i < |elements[1..]| && Field(elements[1..][i], "module") == Err(rest.error)
                               && forall j :: 0 <= j < i ==> Field(elements[1..][j], "module").Ok?
                                                               && Field(elements[1..][j], "module") != Ok(JString("base_info"));
          rest
  }

  /// The header every order carries.
  function Header(order: OrderTicket, token: Json, timestampMillis: int, deviceId: string,
                  click: ClickPosition, dumps: Json -> string): (r: map<string, Json>)
    ensures "buyer_info" !in r && "buyer" !in r && "tel" !in r
  {
    map["count" := JInt(1), "order_type" := JInt(1), "pay_money" := order.ticket.price,
        "project_id" := JInt(order.projectId), "screen_id" := order.session.id,
        "sku_id" := order.ticket.id, "timestamp" := JInt(timestampMillis), "token" := token,
        "deviceId" := JString(deviceId), "clickPosition" := JString(dumps(ClickJson(click)))]
  }

  /// The detail list of the project information: from the `base_info`
  /// module, or read from the module list itself when there is none.
  function Details(projectInfo: Json): Result<seq<Json>>
  {
    match Field(projectInfo, "performance_desc")
    case Err(e) => Err(e)
    case Ok(desc) =>
      match Field(desc, "list")
      case Err(e) => Err(e)
      case Ok(list) =>
        match Items(list)
        case Err(e) => Err(e)
        case Ok(elements) =>
          match FindBaseInfo(elements)
          case Err(e) => Err(e)
          case Ok(found) =>
            var info := if found.Some? then found.value else list;
            match Field(info, "details")
            case Err(e) => Err(e)
            case Ok(details) => Items(details)
  }

  /// The form data of the token request `get_token` sends, after its
  /// credential check. The count goes out as the string "1" here, where
  /// the order payload sends the number 1.
  function TokenRequest(order: OrderTicket): (r: Result<map<string, Json>>)
    ensures r.Err? <==> !order.hasSessdata
    ensures r.Err? ==> r.error == NO_SESSDATA
    ensures r.Ok? ==> r.value.Keys == {"count", "order_type", "project_id", "screen_id", "sku_id"}
                      && r.value["count"] == JString("1")
  {
    if !order.hasSessdata then Err(NO_SESSDATA)
    else Ok(map["count" := JString("1"), "order_type" := JInt(1), "project_id" := JInt(order.projectId),
                "screen_id" := order.session.id, "sku_id" := order.ticket.id])
  }

  /// The token request names the same order type, project, session and
  /// ticket as the order header built from its token.
  lemma TokenRequestMatchesHeader(order: OrderTicket, token: Json, timestampMillis: int, deviceId: string,
                                  click: ClickPosition, dumps: Json -> string)
    requires order.hasSessdata
    ensures var request := TokenRequest(order).value;
            var header := Header(order, token, timestampMillis, deviceId, click, dumps);
            forall k :: k in request && k != "count" ==> k in header && header[k] == request[k]
  {
  }

  /// What `_get_create_order_payload` returns. `tokenResponse` is the
  /// token request's result and `projectInfo` the project's information;
  /// the clock, the device id and the click are parameters and `dumps`
  /// is `json.dumps`.
  function OrderPayload(order: OrderTicket, tokenResponse: Json, projectInfo: Json, timestampMillis: int,
                        deviceId: string, click: ClickPosition, dumps: Json -> string): Result<map<string, Json>>
  {
    match OrderFacts(order, tokenResponse, projectInfo)
    case Err(e) => Err(e)
    case Ok((token, needsId)) =>
      Ok(WithBuyer(Header(order, token, timestampMillis, deviceId, click, dumps), needsId, order.targetBuyer, dumps))
  }

  /// What the payload is built from, in the order it is read: the
  /// credential check, the token, the detail list and its scan.
  function OrderFacts(order: OrderTicket, tokenResponse: Json, projectInfo: Json): (r: Result<(Json, bool)>)
    ensures r.Ok? ==> order.hasSessdata && Field(tokenResponse, "token") == Ok(r.value.0)
                      && Details(projectInfo).Ok? && RequiresId(Details(projectInfo).value) == Ok(r.value.1)
    ensures !order.hasSessdata ==> r == Err(NO_SESSDATA)
    ensures order.hasSessdata && Field(tokenResponse, "token").Err? ==> r == Err(Field(tokenResponse, "token").error)
  {
    if !order.hasSessdata then Err(NO_SESSDATA)
    else
      match Field(tokenResponse, "token")
      case Err(e) => Err(e)
      case Ok(token) =>
        match Details(projectInfo)
        case Err(e) => Err(e)
        case Ok(details) =>
          match RequiresId(details)
          case Err(e) => Err(e)
          case Ok(needsId) => Ok((token, needsId))
  }

  /// The header updated with the buyer's identity record, or with their
  /// name and phone number; no header entry is changed.
  function WithBuyer(header: map<string, Json>, needsId: bool, buyer: BuyerInfo, dumps: Json -> string)
    : (r: map<string, Json>)
    ensures forall k :: k in header && k != "buyer_info" && k != "buyer" && k != "tel" ==> k in r && r[k] == header[k]
    ensures "buyer_info" !in header && "buyer" !in header && "tel" !in header ==>
              ("buyer_info" in r <==> needsId) && ("buyer" in r <==> !needsId) && ("tel" in r <==> !needsId)
  {
    if needsId then header["buyer_info" := JString(dumps(JArray([JObject(BuyerDict(buyer))])))]
    else header["buyer" := buyer.name]["tel" := buyer.tel]
  }

  /// `_get_create_order_payload`: the header is built, then updated with
  /// the buyer's record or with their name and phone number.
  method CreateOrderPayload(order: OrderTicket, tokenResponse: Json, projectInfo: Json, timestampMillis: int,
                            deviceId: string, click: ClickPosition, dumps: Json -> string)
    returns (r: Result<map<string, Json>>)
    ensures r == OrderPayload(order, tokenResponse, projectInfo, timestampMillis, deviceId, click, dumps)
  {
    if !order.hasSessdata {
      return Err(NO_SESSDATA);
    }
    var token := Field(tokenResponse, "token");
    if token.Err? {
      return Err(token.error);
    }
    var header := Header(order, token.value, timestampMillis, deviceId, click, dumps);
    var details := Details(projectInfo);
    if details.Err? {
      return Err(details.error);
    }
    var ds := details.value;
    for i := 0 to |ds|
      invariant forall j :: 0 <= j < i ==> DetailRequiresId(ds[j]) == Ok(false)
    {
      var found := DetailRequiresId(ds[i]);
      if found.Err? {
        RequiresIdFirstError(ds, i);
        return Err(found.error);
      }
      if found.value {
        RequiresIdFirstFound(ds, i);
        assert OrderFacts(order, tokenResponse, projectInfo) == Ok((token.value, true));
        header := header["buyer_info" := JString(dumps(JArray([JObject(BuyerDict(order.targetBuyer))])))];
        return Ok(header);
      }
    }
    assert RequiresId(ds) == Ok(false);
    assert OrderFacts(order, tokenResponse, projectInfo) == Ok((token.value, false));
    header := header["buyer" := order.targetBuyer.name];
    header := header["tel" := order.targetBuyer.tel];
    return Ok(header);
  }

  lemma {:induction false} RequiresIdFirstFound(details: seq<Json>, i: nat)
    requires i < |details| && DetailRequiresId(details[i]) == Ok(true)
    requires forall j :: 0 <= j < i ==> DetailRequiresId(details[j]) == Ok(false)
    ensures RequiresId(details) == Ok(true)
    decreases i
  {
    if i > 0 {
      assert forall j :: 0 <= j < i - 1 ==> details[1..][j] == details[j + 1];
      RequiresIdFirstFound(details[1..], i - 1);
    }
  }

  lemma {:induction false} RequiresIdFirstError(details: seq<Json>, i: nat)
    requires i < |details| && DetailRequiresId(details[i]).Err?
    requires forall j :: 0 <= j < i ==> DetailRequiresId(details[j]) == Ok(false)
    ensures RequiresId(details) == Err(DetailRequiresId(details[i]).error)
    decreases i
  {
    if i > 0 {
      assert forall j :: 0 <= j < i - 1 ==> details[1..][j] == details[j + 1];
      RequiresIdFirstError(details[1..], i - 1);
    }
  }

  /// Every order payload names one ticket of the chosen session, bought
  /// once, at the ticket's price.
  lemma PayloadOrdersOneTicket(order: OrderTicket, tokenResponse: Json, projectInfo: Json, timestampMillis: int,
                               deviceId: string, click: ClickPosition, dumps: Json -> string)
    requires OrderPayload(order, tokenResponse, projectInfo, timestampMillis, deviceId, click, dumps).Ok?
    ensures var p := OrderPayload(order, tokenResponse, projectInfo, timestampMillis, deviceId, click, dumps).value;
            order.hasSessdata
            && p["count"] == JInt(1) && p["order_type"] == JInt(1) && p["pay_money"] == order.ticket.price
            && p["project_id"] == JInt(order.projectId) && p["screen_id"] == order.session.id
            && p["sku_id"] == order.ticket.id && p["token"] == tokenResponse.fields["token"]
  {
    var facts := OrderFacts(order, tokenResponse, projectInfo).value;
    var h := Header(order, facts.0, timestampMillis, deviceId, click, dumps);
    var p := WithBuyer(h, facts.1, order.targetBuyer, dumps);
    assert OrderPayload(order, tokenResponse, projectInfo, timestampMillis, deviceId, click, dumps) == Ok(p);
    HeaderOrdersOneTicket(order, facts.0, timestampMillis, deviceId, click, dumps);
  }

  lemma HeaderOrdersOneTicket(order: OrderTicket, token: Json, timestampMillis: int, deviceId: string,
                              click: ClickPosition, dumps: Json -> string)
    ensures var h := Header(order, token, timestampMillis, deviceId, click, dumps);
            h["count"] == JInt(1) && h["order_type"] == JInt(1) && h["pay_money"] == order.ticket.price
            && h["project_id"] == JInt(order.projectId) && h["screen_id"] == order.session.id
            && h["sku_id"] == order.ticket.id && h["token"] == token
  {
  }

  /// The payload carries the buyer's identity record exactly when some
  /// detail asks for one identity document per person or per order, and
  /// their name and phone number otherwise: never both.
  lemma PayloadBuyerShape(order: OrderTicket, tokenResponse: Json, projectInfo: Json, timestampMillis: int,
                          deviceId: string, click: ClickPosition, dumps: Json -> string)
    requires OrderPayload(order, tokenResponse, projectInfo, timestampMillis, deviceId, click, dumps).Ok?
    ensures Details(projectInfo).Ok?
    ensures var p := OrderPayload(order, tokenResponse, projectInfo, timestampMillis, deviceId, click, dumps).value;
            var ds := Details(projectInfo).value;
            ("buyer_info" in p <==> exists i :: 0 <= i < |ds| && DetailRequiresId(ds[i]) == Ok(true))
            && ("buyer_info" in p <==> "buyer" !in p)
            && ("buyer" in p <==> "tel" in p)
            && ("buyer_info" in p ==> p["buyer_info"] == JString(dumps(JArray([JObject(BuyerDict(order.targetBuyer))]))))
            && ("buyer" in p ==> p["buyer"] == order.targetBuyer.name && p["tel"] == order.targetBuyer.tel)
  {
    var ds := Details(projectInfo).value;
    if RequiresId(ds) == Ok(false) {
      forall i | 0 <= i < |ds|
        ensures DetailRequiresId(ds[i]) != Ok(true)
      {
      }
    }
  }

  /// A document requirement is found from a detail whose text contains
  /// either phrase.
  lemma PhraseRequiresId(detail: Json, content: string)
    requires Field(detail, "content") == Ok(JString(content))
    requires Contains(content, ONE_PERSON_ONE_ID) || Contains(content, ONE_ORDER_ONE_ID)
    ensures DetailRequiresId(detail) == Ok(true)
  {
  }

  /// Without a `base_info` module the detail list is looked up on the
  /// module list itself, which fails: no payload is produced.
  lemma MissingBaseInfoFails(order: OrderTicket, tokenResponse: Json, projectInfo: Json, timestampMillis: int,
                             deviceId: string, click: ClickPosition, dumps: Json -> string)
    requires order.hasSessdata && Field(tokenResponse, "token").Ok?
    requires projectInfo.JObject? && "performance_desc" in projectInfo.fields
    requires var desc := projectInfo.fields["performance_desc"];
             desc.JObject? && "list" in desc.fields && desc.fields["list"].JArray?
             && FindBaseInfo(desc.fields["list"].items) == Ok(None)
    ensures OrderPayload(order, tokenResponse, projectInfo, timestampMillis, deviceId, click, dumps) == Err(TYPE_ERROR)
  {
  }
}
