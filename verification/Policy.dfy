/** Capability policy: authorizing calls (mcp_router/core/policy.py and the policy part of
    mcp_router/server.py) and projecting discovery results to what may be called. */
module Policy {
  import opened Common

  datatype Json =
    | Null | Bool(bit: bool) | Number(digits: string) | Str(text: string)
    | List(items: seq<Json>) | Object(fields: map<string, Json>)

  type Fields = map<string, Json>

  /** A method name; the ones the policy knows have a constructor of their own. */
  datatype Method =
    | ToolsCall | ResourcesRead | ResourcesSubscribe | ResourcesUnsubscribe | SubscriptionsListen | PromptsGet
    | Unnamed(text: string)

  datatype CapabilityPolicy = CapabilityPolicy(
    allowedMethods: Option<set<Method>>, deniedMethods: Option<set<Method>>,
    allowedTools: Option<set<string>>, deniedTools: Option<set<string>>,
    allowedResources: Option<set<string>>, deniedResources: Option<set<string>>,
    allowedPrompts: Option<set<string>>, deniedPrompts: Option<set<string>>)

  datatype Decision = Allowed | MethodNotAllowed | MethodDenied | CapabilityNotAllowed | CapabilityDenied

  predicate Admits<T>(permitted: Option<set<T>>, denied: Option<set<T>>, x: T) {
    (permitted.Some? ==> x in permitted.value) && (denied.Some? ==> x !in denied.value)
  }

  /** Which lists of names a call is checked against. */
  function NameLists(p: CapabilityPolicy, kind: Method, hasName: bool): (Option<set<string>>, Option<set<string>>) {
    match kind
    case ToolsCall => (p.allowedTools, p.deniedTools)
    case ResourcesRead => (p.allowedResources, p.deniedResources)
    case ResourcesSubscribe => (p.allowedResources, p.deniedResources)
    case ResourcesUnsubscribe => (p.allowedResources, p.deniedResources)
    case SubscriptionsListen => if hasName then (p.allowedResources, p.deniedResources) else (None, None)
    case PromptsGet => (p.allowedPrompts, p.deniedPrompts)
    case Unnamed(_) => (None, None)
  }

  function Authorize(p: CapabilityPolicy, kind: Method, name: Option<string>): Decision {
    if p.allowedMethods.Some? && kind !in p.allowedMethods.value then MethodNotAllowed
    else if p.deniedMethods.Some? && kind in p.deniedMethods.value then MethodDenied
    else
      var (permitted, denied) := NameLists(p, kind, name.Some?);
      if permitted.Some? && (name.None? || name.value !in permitted.value) then CapabilityNotAllowed
      else if denied.Some? && name.Some? && name.value in denied.value then CapabilityDenied
      else Allowed
  }

  /** A call is allowed when both its method and its name pass their lists. An allow list refuses a
      call that has no name; a deny list lets it through. */
  lemma AuthorizeMeans(p: CapabilityPolicy, kind: Method, name: Option<string>)
    ensures var (permitted, denied) := NameLists(p, kind, name.Some?);
      Authorize(p, kind, name) == Allowed <==>
      && Admits(p.allowedMethods, p.deniedMethods, kind)
      && (if name.Some? then Admits(permitted, denied, name.value) else permitted.None?)
  {
  }

  /** The method passes its lists. */
  ghost predicate MethodPasses(p: CapabilityPolicy, kind: Method) {
    && (p.allowedMethods.Some? ==> kind in p.allowedMethods.value)
    && (p.deniedMethods.Some? ==> kind !in p.deniedMethods.value)
  }

  ghost predicate ToolPasses(p: CapabilityPolicy, name: string) {
    (p.allowedTools.Some? ==> name in p.allowedTools.value) && (p.deniedTools.Some? ==> name !in p.deniedTools.value)
  }

  ghost predicate ResourcePasses(p: CapabilityPolicy, uri: string) {
    && (p.allowedResources.Some? ==> uri in p.allowedResources.value)
    && (p.deniedResources.Some? ==> uri !in p.deniedResources.value)
  }

  ghost predicate PromptPasses(p: CapabilityPolicy, name: string) {
    && (p.allowedPrompts.Some? ==> name in p.allowedPrompts.value)
    && (p.deniedPrompts.Some? ==> name !in p.deniedPrompts.value)
  }

  /** Method by method: a tool call goes by the tool lists, reading, subscribing, unsubscribing and listening
      to a resource by the resource lists, getting a prompt by the prompt lists, and everything else, a
      listen without a resource included, by the method lists alone. */
  lemma AuthorizeByMethod(p: CapabilityPolicy, kind: Method, name: Option<string>)
    ensures kind == ToolsCall ==> (Authorize(p, kind, name) == Allowed <==>
      MethodPasses(p, kind) && if name.Some? then ToolPasses(p, name.value) else p.allowedTools.None?)
    ensures kind == ResourcesRead || kind == ResourcesSubscribe || kind == ResourcesUnsubscribe ==>
      (Authorize(p, kind, name) == Allowed <==>
        MethodPasses(p, kind) && if name.Some? then ResourcePasses(p, name.value) else p.allowedResources.None?)
    ensures kind == SubscriptionsListen ==> (Authorize(p, kind, name) == Allowed <==>
      MethodPasses(p, kind) && (name.Some? ==> ResourcePasses(p, name.value)))
    ensures kind == PromptsGet ==> (Authorize(p, kind, name) == Allowed <==>
      MethodPasses(p, kind) && if name.Some? then PromptPasses(p, name.value) else p.allowedPrompts.None?)
    ensures kind.Unnamed? ==> (Authorize(p, kind, name) == Allowed <==> MethodPasses(p, kind))
  {
  }

  /** The reason of a refusal: method lists before name lists, and what is not allowed before what is denied. */
  lemma RefusalReason(p: CapabilityPolicy, kind: Method, name: Option<string>)
    ensures var d := Authorize(p, kind, name);
      && (d == MethodNotAllowed <==> p.allowedMethods.Some? && kind !in p.allowedMethods.value)
      && (d == MethodNotAllowed || d == MethodDenied <==> !MethodPasses(p, kind))
      && (kind == ToolsCall && MethodPasses(p, kind) ==>
            (d == CapabilityNotAllowed <==>
               p.allowedTools.Some? && (name.None? || name.value !in p.allowedTools.value)))
  {
  }

  // ------------------------------------------------------------ direct requests

  datatype Request = Request(kind: Method, params: Fields)

  datatype Names = InvalidParams | Names(names: seq<Option<string>>)

  function NonEmptyText(fields: Fields, key: string): Option<string> {
    if key in fields && fields[key].Str? && fields[key].text != "" then Some(fields[key].text) else None
  }

  function NameField(kind: Method): Option<string> {
    match kind
    case ToolsCall => Some("name")
    case PromptsGet => Some("name")
    case ResourcesRead => Some("uri")
    case ResourcesSubscribe => Some("uri")
    case ResourcesUnsubscribe => Some("uri")
    case _ => None
  }

  predicate IsUri(item: Json) {
    item.Str? && item.text != ""
  }

  function Uris(items: seq<Json>): seq<Option<string>>
    requires forall i :: 0 <= i < |items| ==> IsUri(items[i])
  {
    seq(|items|, i requires 0 <= i < |items| && IsUri(items[i]) => Some(items[i].text))
  }

  function ListenNames(params: Fields): Names {
    if "notifications" !in params || !params["notifications"].Object? then Names([])
    else
      var notifications := params["notifications"].fields;
      if "resourceSubscriptions" !in notifications || notifications["resourceSubscriptions"].Null? then Names([])
      else
        var raw := notifications["resourceSubscriptions"];
        if raw.List? && forall i :: 0 <= i < |raw.items| ==> IsUri(raw.items[i])
          then Names(Uris(raw.items)) else InvalidParams
  }

  /** `extract_policy_request_names`. */
  function PolicyNames(r: Request): Names {
    if r.kind == SubscriptionsListen then ListenNames(r.params)
    else
      match NameField(r.kind)
      case None => Names([None])
      case Some(key) => Names([NonEmptyText(r.params, key)])
  }

  datatype Admission = Malformed | Refused(decision: Decision) | Admitted

  function AuthorizeAll(p: CapabilityPolicy, kind: Method, names: seq<Option<string>>): Decision {
    if names == [] then Allowed
    else
      var decision := Authorize(p, kind, names[0]);
      if decision == Allowed then AuthorizeAll(p, kind, names[1..]) else decision
  }

  /** What the gateway does with a request: no names counts as one absent name. */
  function Admit(p: CapabilityPolicy, r: Request): Admission {
    match PolicyNames(r)
    case InvalidParams => Malformed
    case Names(names) =>
      var decision := AuthorizeAll(p, r.kind, if names == [] then [None] else names);
      if decision == Allowed then Admitted else Refused(decision)
  }

  lemma {:induction false} AuthorizeAllMeans(p: CapabilityPolicy, kind: Method, names: seq<Option<string>>)
    ensures AuthorizeAll(p, kind, names) == Allowed <==>
      forall i :: 0 <= i < |names| ==> Authorize(p, kind, names[i]) == Allowed
  {
    if names != [] {
      AuthorizeAllMeans(p, kind, names[1..]);
      assert forall i :: 1 <= i < |names| ==> names[i] == names[1..][i - 1];
    }
  }

  /** The parameter holds a name: a string that is not empty. */
  predicate Holds(params: Fields, key: string) {
    key in params && params[key].Str? && params[key].text != ""
  }

  lemma OneName(p: CapabilityPolicy, kind: Method, name: Option<string>)
    ensures AuthorizeAll(p, kind, [name]) == Authorize(p, kind, name)
  {
    assert [name][1..] == [];
  }

  /** Request by request, with the parameter that each name is read from: `name` for tools and prompts, `uri`
      for resources; an absent, empty or non-string name passes only where there is no allow list. */
  lemma AdmitByMethod(p: CapabilityPolicy, r: Request)
    ensures r.kind == ToolsCall ==> (Admit(p, r) == Admitted <==>
      MethodPasses(p, r.kind)
      && if Holds(r.params, "name") then ToolPasses(p, r.params["name"].text) else p.allowedTools.None?)
    ensures r.kind == ResourcesRead || r.kind == ResourcesSubscribe || r.kind == ResourcesUnsubscribe ==>
      (Admit(p, r) == Admitted <==>
        MethodPasses(p, r.kind)
        && if Holds(r.params, "uri") then ResourcePasses(p, r.params["uri"].text) else p.allowedResources.None?)
    ensures r.kind == PromptsGet ==> (Admit(p, r) == Admitted <==>
      MethodPasses(p, r.kind)
      && if Holds(r.params, "name") then PromptPasses(p, r.params["name"].text) else p.allowedPrompts.None?)
    ensures r.kind.Unnamed? ==> (Admit(p, r) == Admitted <==> MethodPasses(p, r.kind))
    ensures Admit(p, r) == Malformed ==> r.kind == SubscriptionsListen
  {
    match PolicyNames(r)
    case InvalidParams =>
    case Names(names) =>
      if |names| == 1 {
        assert names == [names[0]];
        OneName(p, r.kind, names[0]);
        AuthorizeByMethod(p, r.kind, names[0]);
      }
  }

  /** A listen that names no resource goes by the method lists alone; else each of its URIs must pass the
      resource lists too. */
  lemma ListenByLists(p: CapabilityPolicy, uris: seq<Json>, params: Fields)
    ensures uris != [] ==> (Admit(p, Listen(uris)) == Admitted <==>
      && MethodPasses(p, SubscriptionsListen)
      && forall i :: 0 <= i < |uris| ==> uris[i].Str? && uris[i].text != "" && ResourcePasses(p, uris[i].text))
    ensures Admit(p, Listen([])) == Admitted <==> MethodPasses(p, SubscriptionsListen)
    ensures "notifications" !in params || !params["notifications"].Object? ==>
      (Admit(p, Request(SubscriptionsListen, params)) == Admitted <==> MethodPasses(p, SubscriptionsListen))
  {
    OneName(p, SubscriptionsListen, None);
    AuthorizeByMethod(p, SubscriptionsListen, None);
    ListenNamesOf([]);
    if uris != [] {
      ListenMany(p, uris);
      forall i | 0 <= i < |uris| && IsUri(uris[i])
        ensures Authorize(p, SubscriptionsListen, Some(uris[i].text)) == Allowed <==>
          MethodPasses(p, SubscriptionsListen) && ResourcePasses(p, uris[i].text)
      {
        AuthorizeByMethod(p, SubscriptionsListen, Some(uris[i].text));
      }
    }
  }

  function Listen(uris: seq<Json>): Request {
    Request(SubscriptionsListen, map["notifications" := Object(map["resourceSubscriptions" := List(uris)])])
  }

  /** A subscription to many URIs is admitted exactly when a subscription to each of them alone is;
      one that holds anything but non-empty strings is malformed as a whole. */
  lemma ListenAdmittedIff(p: CapabilityPolicy, uris: seq<Json>)
    requires uris != []
    ensures Admit(p, Listen(uris)) == Admitted <==>
      forall i :: 0 <= i < |uris| ==> Admit(p, Listen([uris[i]])) == Admitted
    ensures Admit(p, Listen(uris)) == Malformed <==> exists i :: 0 <= i < |uris| && !IsUri(uris[i])
  {
    forall i | 0 <= i < |uris|
      ensures Admit(p, Listen([uris[i]])) == Admitted <==>
        IsUri(uris[i]) && Authorize(p, SubscriptionsListen, Some(uris[i].text)) == Allowed
    {
      ListenOne(p, uris[i]);
    }
    ListenMany(p, uris);
  }

  lemma ListenNamesOf(uris: seq<Json>)
    ensures PolicyNames(Listen(uris)) ==
      if forall i :: 0 <= i < |uris| ==> IsUri(uris[i]) then Names(Uris(uris)) else InvalidParams
  {
  }

  lemma ListenOne(p: CapabilityPolicy, uri: Json)
    ensures Admit(p, Listen([uri])) == Admitted <==>
      IsUri(uri) && Authorize(p, SubscriptionsListen, Some(uri.text)) == Allowed
  {
    ListenNamesOf([uri]);
    assert [uri][0] == uri;
    if IsUri(uri) {
      AuthorizeAllMeans(p, SubscriptionsListen, Uris([uri]));
      assert Uris([uri])[0] == Some(uri.text);
    }
  }

  lemma ListenMany(p: CapabilityPolicy, uris: seq<Json>)
    requires uris != []
    ensures Admit(p, Listen(uris)) == Admitted <==>
      forall i :: 0 <= i < |uris| ==> IsUri(uris[i]) && Authorize(p, SubscriptionsListen, Some(uris[i].text)) == Allowed
    ensures Admit(p, Listen(uris)) == Malformed <==> exists i :: 0 <= i < |uris| && !IsUri(uris[i])
  {
    ListenNamesOf(uris);
    if forall i :: 0 <= i < |uris| ==> IsUri(uris[i]) {
      AuthorizeAllMeans(p, SubscriptionsListen, Uris(uris));
      assert forall i :: 0 <= i < |uris| ==> Uris(uris)[i] == Some(uris[i].text);
    }
  }

  // ----------------------------------------------------------------- projection

  datatype Listing = Listing(key: string, kind: Method, nameKey: string)

  const TOOLS := Listing("tools", ToolsCall, "name")
  const RESOURCES := Listing("resources", ResourcesRead, "uri")
  const PROMPTS := Listing("prompts", PromptsGet, "name")

  predicate Survives(p: CapabilityPolicy, l: Listing, item: Json) {
    item.Object? ==> Authorize(p, l.kind, NonEmptyText(item.fields, l.nameKey)) == Allowed
  }

  function Keep(p: CapabilityPolicy, l: Listing, items: seq<Json>): seq<Json> {
    if items == [] then []
    else
      var last := items[|items| - 1];
      Keep(p, l, items[..|items| - 1]) + if Survives(p, l, last) then [last] else []
  }

  function ProjectList(p: CapabilityPolicy, l: Listing, result: Fields): Fields {
    if l.key in result && result[l.key].List? then result[l.key := List(Keep(p, l, result[l.key].items))] else result
  }

  function ProjectLists(p: CapabilityPolicy, result: Fields): Fields {
    ProjectList(p, PROMPTS, ProjectList(p, RESOURCES, ProjectList(p, TOOLS, result)))
  }

  predicate HasResult(payload: Json) {
    payload.Object? && "result" in payload.fields && payload.fields["result"].Object?
  }

  function Project(p: CapabilityPolicy, payload: Json): Json {
    if HasResult(payload)
    then Object(payload.fields["result" := Object(ProjectLists(p, payload.fields["result"].fields))])
    else payload
  }

  predicate Drops(p: CapabilityPolicy, l: Listing, result: Fields) {
    && l.key in result && result[l.key].List?
    && exists i :: 0 <= i < |result[l.key].items| && !Survives(p, l, result[l.key].items[i])
  }

  /** A listed object survives exactly when the gateway would admit the call that its name makes; what is no
      object stays. */
  lemma SurvivesIffCallable(p: CapabilityPolicy, l: Listing, item: Json, params: Fields)
    requires l == TOOLS || l == RESOURCES || l == PROMPTS
    requires item.Object? ==> NonEmptyText(params, l.nameKey) == NonEmptyText(item.fields, l.nameKey)
    ensures item.Object? ==> (Survives(p, l, item) <==> Admit(p, Request(l.kind, params)) == Admitted)
    ensures !item.Object? ==> Survives(p, l, item)
  {
    var name := NonEmptyText(params, l.nameKey);
    assert PolicyNames(Request(l.kind, params)) == Names([name]);
    AuthorizeAllMeans(p, l.kind, [name]);
    assert [name][0] == name;
  }

  /** The positions of the items that survive. */
  function Kept(p: CapabilityPolicy, l: Listing, items: seq<Json>): seq<nat> {
    if items == [] then []
    else Kept(p, l, items[..|items| - 1]) + if Survives(p, l, items[|items| - 1]) then [|items| - 1] else []
  }

  /** Exactly the survivors are kept, each the item it was and in the order it had. */
  lemma {:induction false} KeepsOrder(p: CapabilityPolicy, l: Listing, items: seq<Json>)
    ensures var kept := Kept(p, l, items);
      && |Keep(p, l, items)| == |kept|
      && (forall k :: 0 <= k < |kept| ==> kept[k] < |items| && Keep(p, l, items)[k] == items[kept[k]])
      && (forall j, k :: 0 <= j < k < |kept| ==> kept[j] < kept[k])
      && (forall i :: 0 <= i < |items| ==> (i in kept <==> Survives(p, l, items[i])))
  {
    hide Survives;
    KeptAscends(p, l, items);
    KeptSurvives(p, l, items);
    if items != [] {
      var n := |items| - 1;
      KeepsOrder(p, l, items[..n]);
    }
  }

  lemma {:induction false} KeptAscends(p: CapabilityPolicy, l: Listing, items: seq<Json>)
    ensures var kept := Kept(p, l, items);
      && (forall k :: 0 <= k < |kept| ==> kept[k] < |items|)
      && (forall j, k :: 0 <= j < k < |kept| ==> kept[j] < kept[k])
  {
    if items != [] {
      var n := |items| - 1;
      KeptAscends(p, l, items[..n]);
      assert Kept(p, l, items) == Kept(p, l, items[..n]) + if Survives(p, l, items[n]) then [n] else [];
    }
  }

  lemma {:induction false} KeptSurvives(p: CapabilityPolicy, l: Listing, items: seq<Json>)
    ensures forall i :: 0 <= i < |items| ==> (i in Kept(p, l, items) <==> Survives(p, l, items[i]))
  {
    hide Survives;
    if items != [] {
      var n := |items| - 1;
      KeptSurvives(p, l, items[..n]);
      KeptAscends(p, l, items[..n]);
      assert forall i :: 0 <= i < n ==> items[..n][i] == items[i];
      assert n !in Kept(p, l, items[..n]);
    }
  }

  lemma {:induction false} KeepShrinks(p: CapabilityPolicy, l: Listing, items: seq<Json>)
    ensures |Keep(p, l, items)| <= |items|
    ensures |Keep(p, l, items)| == |items| <==> forall i :: 0 <= i < |items| ==> Survives(p, l, items[i])
    ensures |Keep(p, l, items)| == |items| ==> Keep(p, l, items) == items
    ensures forall i :: 0 <= i < |Keep(p, l, items)| ==> Survives(p, l, Keep(p, l, items)[i])
  {
    if items != [] {
      var n := |items| - 1;
      KeepShrinks(p, l, items[..n]);
      assert items == items[..n] + [items[n]];
    }
  }

  lemma KeepTwice(p: CapabilityPolicy, l: Listing, items: seq<Json>)
    ensures Keep(p, l, Keep(p, l, items)) == Keep(p, l, items)
  {
    KeepShrinks(p, l, items);
    KeepShrinks(p, l, Keep(p, l, items));
  }

  lemma ProjectListChanges(p: CapabilityPolicy, l: Listing, result: Fields)
    ensures ProjectList(p, l, result) != result <==> Drops(p, l, result)
    ensures ProjectList(p, l, ProjectList(p, l, result)) == ProjectList(p, l, result)
  {
    if l.key in result && result[l.key].List? {
      KeepShrinks(p, l, result[l.key].items);
      KeepTwice(p, l, result[l.key].items);
    }
  }

  lemma ListingsApart()
    ensures TOOLS.key != RESOURCES.key && TOOLS.key != PROMPTS.key && RESOURCES.key != PROMPTS.key
  {
    assert TOOLS.key[0] == 't' && RESOURCES.key[0] == 'r' && PROMPTS.key[0] == 'p';
  }

  /** What projecting does to each entry of a result. */
  lemma ProjectListsAt(p: CapabilityPolicy, result: Fields)
    ensures var after := ProjectLists(p, result);
      && after.Keys == result.Keys
      && (forall key <- result ::
            key != TOOLS.key && key != RESOURCES.key && key != PROMPTS.key ==> after[key] == result[key])
      && Entry(p, TOOLS, result, after) && Entry(p, RESOURCES, result, after) && Entry(p, PROMPTS, result, after)
  {
    ListingsApart();
  }

  /** The three lists by name, the call that each item stands for, and where its name is read from. */
  lemma ProjectionIs(p: CapabilityPolicy, result: Fields)
    ensures var after := ProjectLists(p, result);
      && (forall key <- result :: key != "tools" && key != "resources" && key != "prompts" ==>
            key in after && after[key] == result[key])
      && Entry(p, Listing("tools", ToolsCall, "name"), result, after)
      && Entry(p, Listing("resources", ResourcesRead, "uri"), result, after)
      && Entry(p, Listing("prompts", PromptsGet, "name"), result, after)
  {
    ProjectListsAt(p, result);
  }

  ghost predicate Entry(p: CapabilityPolicy, l: Listing, result: Fields, after: Fields) {
    l.key in result ==>
      && l.key in after
      && after[l.key] == if result[l.key].List? then List(Keep(p, l, result[l.key].items)) else result[l.key]
  }

  ghost predicate DropsAny(p: CapabilityPolicy, result: Fields) {
    Drops(p, TOOLS, result) || Drops(p, RESOURCES, result) || Drops(p, PROMPTS, result)
  }

  lemma EntryChanges(p: CapabilityPolicy, l: Listing, result: Fields, after: Fields)
    requires Entry(p, l, result, after) && after.Keys == result.Keys
    ensures Drops(p, l, result) <==> l.key in result && after[l.key] != result[l.key]
  {
    if l.key in result && result[l.key].List? {
      KeepShrinks(p, l, result[l.key].items);
    }
  }

  /** The projection changes a result exactly when one of its lists drops an item. */
  lemma ProjectListsChange(p: CapabilityPolicy, result: Fields)
    ensures ProjectLists(p, result) != result <==> DropsAny(p, result)
  {
    var after := ProjectLists(p, result);
    ProjectListsAt(p, result);
    EntryChanges(p, TOOLS, result, after);
    EntryChanges(p, RESOURCES, result, after);
    EntryChanges(p, PROMPTS, result, after);
    if !DropsAny(p, result) {
      assert forall key <- result :: after[key] == result[key];
      assert after == result;
    }
  }

  lemma EntryIsDone(p: CapabilityPolicy, l: Listing, result: Fields, after: Fields)
    requires Entry(p, l, result, after) && after.Keys == result.Keys
    ensures !Drops(p, l, after)
  {
    if l.key in result && result[l.key].List? {
      KeepShrinks(p, l, result[l.key].items);
    }
  }

  /** Projecting twice is projecting once. */
  lemma ProjectTwice(p: CapabilityPolicy, payload: Json)
    ensures Project(p, Project(p, payload)) == Project(p, payload)
  {
    if HasResult(payload) {
      var result := payload.fields["result"].fields;
      var after := ProjectLists(p, result);
      ProjectListsAt(p, result);
      EntryIsDone(p, TOOLS, result, after);
      EntryIsDone(p, RESOURCES, result, after);
      EntryIsDone(p, PROMPTS, result, after);
      ProjectListsChange(p, after);
      assert Project(p, payload).fields["result"] == Object(after);
      var once := payload.fields["result" := Object(after)];
      assert once["result" := Object(after)] == once;
    }
  }

  // ------------------------------------------------------------------ the text

  /** JSON reading and printing, and str.strip. */
  datatype Codec = Codec(parse: string -> Option<Json>, dumps: Json -> string, strip: string -> string)

  const PREFIX := "data: "

  /** Printing then reading is the identity, and a printed object has no blank ends and is no data line. */
  ghost predicate Faithful(c: Codec) {
    && (forall j: Json :: c.parse(c.dumps(j)) == Some(j))
    && (forall j: Json :: j.Object? ==> c.strip(c.dumps(j)) == c.dumps(j) && !(PREFIX <= c.dumps(j)))
  }

  function JsonPart(c: Codec, text: string): string {
    if PREFIX <= text then c.strip(text[|PREFIX|..]) else text
  }

  function Rewritten(c: Codec, text: string, payload: Json): string {
    (if PREFIX <= text then PREFIX else "") + c.dumps(payload)
  }

  ghost function ProjectText(c: Codec, p: CapabilityPolicy, text: string): (string, bool) {
    match c.parse(JsonPart(c, text))
    case None => (text, false)
    case Some(payload) =>
      if HasResult(payload) && DropsAny(p, payload.fields["result"].fields)
        then (Rewritten(c, text, Project(p, payload)), true)
      else (text, false)
  }

  lemma ProjectChanges(p: CapabilityPolicy, payload: Json)
    ensures Project(p, payload) != payload <==> HasResult(payload) && DropsAny(p, payload.fields["result"].fields)
    ensures HasResult(payload) ==> HasResult(Project(p, payload))
  {
    if HasResult(payload) {
      var fields, after := payload.fields, ProjectLists(p, payload.fields["result"].fields);
      ProjectListsChange(p, fields["result"].fields);
      assert fields["result" := Object(after)]["result"] == Object(after);
      if after == fields["result"].fields {
        assert fields["result" := Object(after)] == fields;
      }
    }
  }

  predicate Changes(p: CapabilityPolicy, payload: Json) {
    Project(p, payload) != payload
  }

  /** The text is reported changed exactly when a list in it drops an item; then it reads as the
      projected payload, and otherwise it is the text that came in. */
  lemma ProjectTextMeans(c: Codec, p: CapabilityPolicy, text: string)
    requires Faithful(c)
    ensures var (output, changed) := ProjectText(c, p, text);
      && (changed <==> c.parse(JsonPart(c, text)).Some? && Changes(p, c.parse(JsonPart(c, text)).value))
      && (changed ==> c.parse(JsonPart(c, output)) == Some(Project(p, c.parse(JsonPart(c, text)).value)))
      && (!changed ==> output == text)
  {
    if c.parse(JsonPart(c, text)).Some? {
      var payload := c.parse(JsonPart(c, text)).value;
      ProjectChanges(p, payload);
      if HasResult(payload) {
        RewrittenReads(c, text, Project(p, payload));
      }
    }
  }

  /** A body is projected as it is; on a data line what follows "data: " is, and the line stays one. */
  lemma ProjectsLinesAndBodies(c: Codec, p: CapabilityPolicy, text: string)
    ensures var line := "data: " + text;
      var (output, changed) := ProjectText(c, p, line);
      var payload := c.parse(c.strip(text));
      && (changed <==> payload.Some? && Changes(p, payload.value))
      && output == if changed then "data: " + c.dumps(Project(p, payload.value)) else line
    ensures !("data: " <= text) ==>
      var (output, changed) := ProjectText(c, p, text);
      var payload := c.parse(text);
      && (changed <==> payload.Some? && Changes(p, payload.value))
      && output == if changed then c.dumps(Project(p, payload.value)) else text
  {
    assert ("data: " + text)[6..] == text;
    if c.parse(c.strip(text)).Some? {
      ProjectChanges(p, c.parse(c.strip(text)).value);
    }
    if c.parse(text).Some? {
      ProjectChanges(p, c.parse(text).value);
      assert "" + c.dumps(Project(p, c.parse(text).value)) == c.dumps(Project(p, c.parse(text).value));
    }
  }

  lemma RewrittenReads(c: Codec, text: string, payload: Json)
    requires Faithful(c) && payload.Object?
    ensures c.parse(JsonPart(c, Rewritten(c, text, payload))) == Some(payload)
  {
    if PREFIX <= text {
      assert (PREFIX + c.dumps(payload))[|PREFIX|..] == c.dumps(payload);
    } else {
      assert "" + c.dumps(payload) == c.dumps(payload);
    }
  }

  lemma ProjectTextTwice(c: Codec, p: CapabilityPolicy, text: string)
    requires Faithful(c)
    ensures ProjectText(c, p, ProjectText(c, p, text).0) == (ProjectText(c, p, text).0, false)
  {
    ProjectTextMeans(c, p, text);
    var (output, changed) := ProjectText(c, p, text);
    if changed {
      var payload := c.parse(JsonPart(c, text)).value;
      ProjectTwice(p, payload);
      ProjectChanges(p, Project(p, payload));
    }
  }

  // ------------------------------------------------------------------ the loops

  const LISTINGS := [TOOLS, RESOURCES, PROMPTS]

  method NamesOf(r: Request) returns (names: Names)
    ensures names == PolicyNames(r)
  {
    if r.kind != SubscriptionsListen {
      match NameField(r.kind) {
        case None => return Names([None]);
        case Some(key) => return Names([NonEmptyText(r.params, key)]);
      }
    }
    if "notifications" !in r.params || !r.params["notifications"].Object? {
      return Names([]);
    }
    var notifications := r.params["notifications"].fields;
    if "resourceSubscriptions" !in notifications || notifications["resourceSubscriptions"].Null? {
      return Names([]);
    }
    var raw := notifications["resourceSubscriptions"];
    if !raw.List? {
      return InvalidParams;
    }
    var uris: seq<Option<string>> := [];
    for i := 0 to |raw.items|
      invariant forall k :: 0 <= k < i ==> IsUri(raw.items[k])
      invariant uris == Uris(raw.items[..i])
    {
      if !raw.items[i].Str? || raw.items[i].text == "" {
        return InvalidParams;
      }
      uris := uris + [Some(raw.items[i].text)];
    }
    assert raw.items[..|raw.items|] == raw.items;
    return Names(uris);
  }

  /** The policy part of `catch_all_proxy`: the first refusal answers the request. */
  method AdmitRequest(p: CapabilityPolicy, r: Request) returns (admission: Admission)
    ensures admission == Admit(p, r)
  {
    var extracted := NamesOf(r);
    if extracted.InvalidParams? {
      return Malformed;
    }
    var names := if extracted.names == [] then [None] else extracted.names;
    for i := 0 to |names|
      invariant AuthorizeAll(p, r.kind, names) == AuthorizeAll(p, r.kind, names[i..])
    {
      assert names[i..][0] == names[i] && names[i..][1..] == names[i + 1..];
      var decision := Authorize(p, r.kind, names[i]);
      if decision != Allowed {
        return Refused(decision);
      }
    }
    admission := Admitted;
  }

  method ProjectItems(p: CapabilityPolicy, l: Listing, items: seq<Json>) returns (projected: seq<Json>, changed: bool)
    ensures projected == Keep(p, l, items)
    ensures changed <==> exists i :: 0 <= i < |items| && !Survives(p, l, items[i])
  {
    projected, changed := [], false;
    for i := 0 to |items|
      invariant projected == Keep(p, l, items[..i])
      invariant changed <==> exists k :: 0 <= k < i && !Survives(p, l, items[k])
    {
      assert items[..i + 1][..i] == items[..i];
      var item := items[i];
      if !item.Object? || Authorize(p, l.kind, NonEmptyText(item.fields, l.nameKey)) == Allowed {
        projected := projected + [item];
      } else {
        changed := true;
      }
    }
    assert items[..|items|] == items;
  }

  ghost function ProjectedUpTo(p: CapabilityPolicy, result: Fields, k: nat): Fields
    requires k <= 3
  {
    if k == 0 then result else ProjectList(p, LISTINGS[k - 1], ProjectedUpTo(p, result, k - 1))
  }

  ghost predicate DroppedUpTo(p: CapabilityPolicy, result: Fields, k: nat)
    requires k <= 3
  {
    k > 0 && (DroppedUpTo(p, result, k - 1) || Drops(p, LISTINGS[k - 1], ProjectedUpTo(p, result, k - 1)))
  }

  lemma AllProjected(p: CapabilityPolicy, result: Fields)
    ensures ProjectedUpTo(p, result, 3) == ProjectLists(p, result)
    ensures DroppedUpTo(p, result, 3) <==> DropsAny(p, result)
  {
    ListingsApart();
    var one, two := ProjectedUpTo(p, result, 1), ProjectedUpTo(p, result, 2);
    assert ProjectedUpTo(p, result, 0) == result && one == ProjectList(p, TOOLS, result);
    assert two == ProjectList(p, RESOURCES, one);
    assert Drops(p, RESOURCES, one) <==> Drops(p, RESOURCES, result);
    assert Drops(p, PROMPTS, two) <==> Drops(p, PROMPTS, result);
    assert DroppedUpTo(p, result, 1) <==> Drops(p, TOOLS, result);
    assert DroppedUpTo(p, result, 2) <==> Drops(p, TOOLS, result) || Drops(p, RESOURCES, result);
  }

  method ProjectResult(p: CapabilityPolicy, result: Fields) returns (projected: Fields, changed: bool)
    ensures projected == ProjectLists(p, result) && (changed <==> DropsAny(p, result))
  {
    projected, changed := result, false;
    for k := 0 to 3
      invariant projected == ProjectedUpTo(p, result, k) && (changed <==> DroppedUpTo(p, result, k))
    {
      var l := LISTINGS[k];
      ProjectListChanges(p, l, projected);
      if l.key !in projected || !projected[l.key].List? {
        continue;
      }
      var items, dropped := ProjectItems(p, l, projected[l.key].items);
      if dropped {
        projected := projected[l.key := List(items)];
        changed := true;
      }
    }
    AllProjected(p, result);
  }

  method ProjectJsonText(c: Codec, p: CapabilityPolicy, text: string) returns (output: string, changed: bool)
    ensures (output, changed) == ProjectText(c, p, text)
  {
    var prefix, json := "", text;
    if PREFIX <= text {
      prefix, json := PREFIX, c.strip(text[|PREFIX|..]);
    }
    var parsed := c.parse(json);
    if parsed.None? || !HasResult(parsed.value) {
      return text, false;
    }
    var payload := parsed.value;
    var result;
    result, changed := ProjectResult(p, payload.fields["result"].fields);
    if !changed {
      return text, false;
    }
    output := prefix + c.dumps(Object(payload.fields["result" := Object(result)]));
  }
}
