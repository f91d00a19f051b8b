/** The Mailgun account as a value, and what each request to it does.  This is the
    specification the mutable mock server of module MockServer is proved against, and the
    Mailgun the two controllers run against.

    `createdAt` is the CreatedAt time of a domain taken from a logical clock, so that two
    entries of the same name can be told apart. */
module Account {
  import opened Basics

  const UNKNOWN_DNS := "unknown"
  const VALID_DNS := "valid"
  const UNVERIFIED := "unverified"
  const ACTIVE := "active"

  datatype MgRecord = MgRecord(name: string, priority: string, recordType: string, valid: string, value: string)

  datatype Container = Container(
    name: string, state: string, createdAt: nat, smtpLogin: string,
    receiving: seq<MgRecord>, sending: seq<MgRecord>)

  datatype MgRoute = MgRoute(id: string, priority: int, actions: seq<string>, description: string, expression: string)

  /** A form field holding a number: not sent, sent, or not a number. */
  datatype FormInt = Absent | Number(n: int) | Garbage

  datatype RouteForm = RouteForm(description: string, expression: string, priority: FormInt, actions: seq<string>)

  datatype Account = Account(
    domains: seq<Container>, active: seq<string>, activeMX: seq<string>, failed: seq<string>,
    routes: map<string, MgRoute>, failRoutes: map<string, seq<string>>, clock: nat)

  datatype Reply = DomainBody(domain: Container) | RouteBody(route: MgRoute) | Message | HttpError(code: nat)

  datatype Response = Response(account: Account, reply: Reply)

  // ----- domains -----

  function Records(name: string, sending: bool, activeDomain: bool, activeMX: bool): seq<MgRecord> {
    var dnsValid := if activeDomain then VALID_DNS else UNKNOWN_DNS;
    var mxValid := if activeMX then VALID_DNS else UNKNOWN_DNS;
    if sending then
      [ MgRecord(name, "", "TXT", dnsValid, "v=spf1 include:mailgun.org ~all"),
        MgRecord("d.mail." + name, "", "TXT", dnsValid, "k=rsa; p=MIGfMA0GCSqGSIb3DQEBAQUA...."),
        MgRecord("email." + name, "", "CNAME", dnsValid, "mailgun.org") ]
    else
      [ MgRecord("", "10", "MX", mxValid, "mxa.mailgun.org"),
        MgRecord("", "10", "MX", mxValid, "mxb.mailgun.org") ]
  }

  function RecordsFor(a: Account, name: string, sending: bool): seq<MgRecord> {
    Records(name, sending, name in a.active, name in a.activeMX)
  }

  function NewContainer(a: Account, name: string): Container {
    Container(name, if name in a.active then ACTIVE else UNVERIFIED, a.clock, "postmaster@" + name,
              RecordsFor(a, name, false), RecordsFor(a, name, true))
  }

  /** The index of the first entry called `name`, or the length of the list. */
  function Find(list: seq<Container>, name: string): (k: nat)
    ensures k <= |list|
    ensures k < |list| ==> list[k].name == name
    ensures forall j | 0 <= j < k :: list[j].name != name
  {
    if |list| == 0 || list[0].name == name then 0 else 1 + Find(list[1..], name)
  }

  predicate Lists(a: Account, name: string) {
    Find(a.domains, name) < |a.domains|
  }

  function Without(list: seq<Container>, k: nat): seq<Container>
    requires k < |list|
  {
    list[..k] + list[k + 1..]
  }

  function MarkValid(records: seq<MgRecord>): (marked: seq<MgRecord>)
    ensures |marked| == |records|
    ensures forall j | 0 <= j < |records| :: marked[j] == records[j].(valid := VALID_DNS)
  {
    if |records| == 0 then [] else [records[0].(valid := VALID_DNS)] + MarkValid(records[1..])
  }

  function AddDomain(a: Account, name: string): Account {
    a.(domains := a.domains + [NewContainer(a, name)], clock := a.clock + 1)
  }

  function CreateDomain(a: Account, name: string): Response {
    if name in a.failed then Response(a, HttpError(500))
    else Response(AddDomain(a, name), DomainBody(NewContainer(a, name)))
  }

  function GetDomain(a: Account, name: string): Response {
    var k := Find(a.domains, name);
    if k == |a.domains| then Response(a, HttpError(404))
    else
      var c := a.domains[k].(receiving := RecordsFor(a, name, false));
      Response(a.(domains := a.domains[k := c]), DomainBody(c))
  }

  function VerifyDomain(a: Account, name: string): Response {
    var k := Find(a.domains, name);
    if k == |a.domains| then Response(a, HttpError(404))
    else
      var c := a.domains[k].(state := if name in a.active then ACTIVE else a.domains[k].state,
                             receiving := MarkValid(a.domains[k].receiving),
                             sending := MarkValid(a.domains[k].sending));
      Response(a.(domains := a.domains[k := c]), DomainBody(c))
  }

  /** The test hook that takes a domain away. */
  function DropDomain(a: Account, name: string): Account {
    var k := Find(a.domains, name);
    if k == |a.domains| then a else a.(domains := Without(a.domains, k))
  }

  function DeleteDomain(a: Account, name: string): Response {
    if name in a.failed then Response(a, HttpError(500))
    else if !Lists(a, name) then Response(a, HttpError(404))
    else Response(DropDomain(a, name), Message)
  }

  // ----- routes -----

  /** The form the Mailgun client sends to create a route. */
  function CreateForm(r: MgRoute): RouteForm {
    RouteForm(r.description, r.expression, Number(r.priority), r.actions)
  }

  /** The form it sends to update one: empty fields are not sent. */
  function UpdateForm(r: MgRoute): RouteForm {
    RouteForm(r.description, r.expression, if r.priority != 0 then Number(r.priority) else Absent, r.actions)
  }

  function CreateRoute(a: Account, form: RouteForm, id: string): Response {
    if form.description == "fail" then Response(a, HttpError(500))
    else if form.priority.Garbage? then Response(a, HttpError(400))
    else
      var p := if form.priority.Number? then form.priority.n else 0;
      var r := MgRoute(id, p, form.actions, form.description, form.expression);
      Response(a.(routes := a.routes[id := r]), RouteBody(r))
  }

  predicate Fails(a: Account, action: string, id: string) {
    action in a.failRoutes && id in a.failRoutes[action]
  }

  function GetRoute(a: Account, id: string): Response {
    if id == "" then Response(a, HttpError(400))
    else if Fails(a, "get", id) then Response(a, HttpError(500))
    else if id !in a.routes then Response(a, HttpError(404))
    else Response(a, RouteBody(a.routes[id]))
  }

  function DeleteRoute(a: Account, id: string): Response {
    if id == "" then Response(a, HttpError(400))
    else if Fails(a, "delete", id) then Response(a, HttpError(500))
    else Response(a.(routes := a.routes - {id}), Message)
  }

  /** The fields that were sent replace the stored ones; the others stay. */
  function Merge(r: MgRoute, form: RouteForm): MgRoute {
    MgRoute(r.id,
            if form.priority.Number? then form.priority.n else r.priority,
            if |form.actions| > 0 && form.actions[0] != "" then form.actions else r.actions,
            if form.description != "" then form.description else r.description,
            if form.expression != "" then form.expression else r.expression)
  }

  function UpdateRoute(a: Account, id: string, form: RouteForm): Response {
    if id == "" then Response(a, HttpError(400))
    else if id !in a.routes then Response(a, HttpError(404))
    else if form.priority.Garbage? then Response(a, HttpError(400))
    else
      var r := Merge(a.routes[id], form);
      Response(a.(routes := a.routes[id := r]), RouteBody(r))
  }

  function FailRoutes(a: Account, action: string, id: string): Account {
    var ids := if action in a.failRoutes then a.failRoutes[action] else [];
    a.(failRoutes := a.failRoutes[action := ids + [id]])
  }

  /** Everything anybody can ask of the account, with the mock server's test hooks. */
  datatype Request =
    | Add(name: string) | Drop(name: string) | Create(name: string) | Read(name: string)
    | Verify(name: string) | Delete(name: string)
    | Activate(name: string) | ActivateMX(name: string) | FailDomain(name: string)
    | NewRoute(form: RouteForm, id: string) | ReadRoute(id: string) | ChangeRoute(id: string, form: RouteForm)
    | RemoveRoute(id: string) | BreakRoutes(action: string, id: string)

  function Serve(a: Account, r: Request): Account {
    match r
    case Add(name) => AddDomain(a, name)
    case Drop(name) => DropDomain(a, name)
    case Create(name) => CreateDomain(a, name).account
    case Read(name) => GetDomain(a, name).account
    case Verify(name) => VerifyDomain(a, name).account
    case Delete(name) => DeleteDomain(a, name).account
    case Activate(name) => a.(active := a.active + [name])
    case ActivateMX(name) => a.(activeMX := a.activeMX + [name])
    case FailDomain(name) => a.(failed := a.failed + [name])
    case NewRoute(form, id) => CreateRoute(a, form, id).account
    case ReadRoute(id) => GetRoute(a, id).account
    case ChangeRoute(id, form) => UpdateRoute(a, id, form).account
    case RemoveRoute(id) => DeleteRoute(a, id).account
    case BreakRoutes(action, id) => FailRoutes(a, action, id)
  }

  // ----- what every request keeps -----

  /** Only domains Mailgun was told to activate are ever in state active, and entries are
      stamped in the order they were added. */
  ghost predicate Sane(a: Account) {
    SaneList(a.domains, a.active, a.clock)
  }

  ghost predicate SaneList(list: seq<Container>, active: seq<string>, clock: nat) {
    && (forall i | 0 <= i < |list| :: list[i].state == ACTIVE ==> list[i].name in active)
    && (forall i | 0 <= i < |list| :: list[i].createdAt < clock)
    && (forall i, j | 0 <= i < j < |list| :: list[i].createdAt < list[j].createdAt)
  }

  /** The same domains, whatever Mailgun knows about each. */
  ghost predicate SameEntries(list: seq<Container>, list': seq<Container>) {
    && |list'| == |list|
    && (forall i | 0 <= i < |list| :: list'[i].name == list[i].name && list'[i].createdAt == list[i].createdAt)
  }

  lemma WithoutAt(list: seq<Container>, k: nat, i: nat)
    requires k < |list| && i < |list| - 1
    ensures Without(list, k)[i] == list[if i < k then i else i + 1]
  {
  }

  lemma WithoutStaysSane(list: seq<Container>, k: nat, active: seq<string>, clock: nat)
    requires SaneList(list, active, clock) && k < |list|
    ensures SaneList(Without(list, k), active, clock)
  {
    forall i | 0 <= i < |list| - 1
      ensures Without(list, k)[i] == list[if i < k then i else i + 1]
    {
      WithoutAt(list, k, i);
    }
  }

  lemma RewriteStaysSane(list: seq<Container>, k: nat, c: Container, active: seq<string>, clock: nat)
    requires SaneList(list, active, clock) && k < |list|
    requires c.name == list[k].name && c.createdAt == list[k].createdAt
    requires c.state == ACTIVE ==> c.name in active
    ensures SaneList(list[k := c], active, clock)
  {
  }

  lemma AppendStaysSane(list: seq<Container>, c: Container, active: seq<string>, clock: nat)
    requires SaneList(list, active, clock)
    requires c.createdAt == clock && (c.state == ACTIVE ==> c.name in active)
    ensures SaneList(list + [c], active, clock + 1)
  {
  }

  lemma RequestsStaySane(a: Account, name: string)
    requires Sane(a)
    ensures Sane(AddDomain(a, name)) && Sane(CreateDomain(a, name).account)
    ensures Sane(GetDomain(a, name).account) && Sane(VerifyDomain(a, name).account)
    ensures Sane(DropDomain(a, name)) && Sane(DeleteDomain(a, name).account)
  {
    AppendStaysSane(a.domains, NewContainer(a, name), a.active, a.clock);
    var k := Find(a.domains, name);
    if k < |a.domains| {
      WithoutStaysSane(a.domains, k, a.active, a.clock);
      RewriteStaysSane(a.domains, k, GetDomain(a, name).reply.domain, a.active, a.clock);
      RewriteStaysSane(a.domains, k, VerifyDomain(a, name).reply.domain, a.active, a.clock);
    }
  }

  lemma ActivationStaysSane(list: seq<Container>, active: seq<string>, clock: nat, name: string)
    requires SaneList(list, active, clock)
    ensures SaneList(list, active + [name], clock)
  {
  }

  lemma ServeStaysSane(a: Account, r: Request)
    requires Sane(a)
    ensures Sane(Serve(a, r))
  {
    match r
    case Add(name) => RequestsStaySane(a, name);
    case Drop(name) => RequestsStaySane(a, name);
    case Create(name) => RequestsStaySane(a, name);
    case Read(name) => RequestsStaySane(a, name);
    case Verify(name) => RequestsStaySane(a, name);
    case Delete(name) => RequestsStaySane(a, name);
    case Activate(name) => ActivationStaysSane(a.domains, a.active, a.clock, name);
    case _ =>
  }

  /** Nothing is ever deactivated, and the clock never runs back. */
  lemma ServeGrows(a: Account, r: Request)
    ensures forall n :: n in a.active ==> n in Serve(a, r).active
    ensures forall n :: n in a.activeMX ==> n in Serve(a, r).activeMX
    ensures Serve(a, r).clock >= a.clock
  {
  }

  /** A verified domain reported active was activated, and a domain whose receiving records are
      all valid in a fresh read had its MX records set: the read rebuilds them, whatever an
      earlier verification marked. */
  lemma ReportsAreTrue(a: Account, name: string)
    requires Sane(a)
    ensures var r := VerifyDomain(a, name).reply;
            r.DomainBody? && r.domain.state == ACTIVE ==> name in a.active
    ensures var r := GetDomain(a, name).reply;
            r.DomainBody? ==> && (r.domain.state == ACTIVE ==> name in a.active)
                              && |r.domain.receiving| > 0
                              && ((forall j | 0 <= j < |r.domain.receiving| :: r.domain.receiving[j].valid == VALID_DNS)
                                  <==> name in a.activeMX)
  {
    var r := GetDomain(a, name).reply;
    if r.DomainBody? {
      assert r.domain.receiving[0].valid == if name in a.activeMX then VALID_DNS else UNKNOWN_DNS;
    }
  }

  predicate AllMarked(records: seq<MgRecord>) {
    forall j | 0 <= j < |records| :: records[j].valid == VALID_DNS
  }

  /** A verification marks every record valid and activates what was to be activated; the next
      read takes the marks off the receiving records again, unless the MX records are really set,
      and leaves state and sending records alone. */
  lemma VerifyThenRead(a: Account, name: string)
    requires Lists(a, name)
    ensures var v := VerifyDomain(a, name);
            var r := GetDomain(v.account, name);
            && v.reply.DomainBody? && AllMarked(v.reply.domain.receiving) && AllMarked(v.reply.domain.sending)
            && (v.reply.domain.state == ACTIVE <==> name in a.active || a.domains[Find(a.domains, name)].state == ACTIVE)
            && r.reply.DomainBody? && (AllMarked(r.reply.domain.receiving) <==> name in a.activeMX)
            && r.reply.domain.state == v.reply.domain.state && r.reply.domain.sending == v.reply.domain.sending
  {
    var k := Find(a.domains, name);
    var v := VerifyDomain(a, name);
    FindRewritten(a.domains, k, v.reply.domain, name);
    var r := GetDomain(v.account, name);
    assert r.reply.domain.receiving[0].valid == if name in a.activeMX then VALID_DNS else UNKNOWN_DNS;
  }

  /** What is created can be read back as it was asked for, and after a deletion not any more; the
      other routes do not notice. */
  lemma RoutesReadBack(a: Account, r: MgRoute, id: string)
    requires r.description != "fail" && id != "" && !Fails(a, "get", id) && !Fails(a, "delete", id)
    ensures var created := CreateRoute(a, CreateForm(r), id).account;
            var deleted := DeleteRoute(created, id).account;
            && GetRoute(created, id).reply == RouteBody(r.(id := id))
            && GetRoute(deleted, id).reply == HttpError(404)
            && (forall o | o != id :: GetRoute(created, o).reply == GetRoute(a, o).reply == GetRoute(deleted, o).reply)
  {
  }

  /** A failing route is the one named, for the action named. */
  lemma FailingRoutes(a: Account, action: string, id: string, action': string, id': string)
    ensures Fails(FailRoutes(a, action, id), action', id') <==> Fails(a, action', id') || (action' == action && id' == id)
  {
  }

  // ----- the list as a map -----

  ghost predicate Unique(list: seq<Container>) {
    forall i, j | 0 <= i < j < |list| :: list[i].name != list[j].name
  }

  /** First-match lookup as a map: earlier entries hide later ones. */
  function AsMap(list: seq<Container>): map<string, Container> {
    if |list| == 0 then map[] else AsMap(list[1..])[list[0].name := list[0]]
  }

  lemma {:induction false} Lookup(list: seq<Container>, n: string)
    ensures n in AsMap(list) <==> Find(list, n) < |list|
    ensures n in AsMap(list) ==> AsMap(list)[n] == list[Find(list, n)]
  {
    if |list| > 0 && list[0].name != n { Lookup(list[1..], n); }
  }

  lemma {:induction false} FirstMatch(list: seq<Container>, n: string, i: nat)
    requires i <= |list| && (i < |list| ==> list[i].name == n)
    requires forall j | 0 <= j < i :: list[j].name != n
    ensures Find(list, n) == i
  {
    if |list| > 0 && list[0].name != n { FirstMatch(list[1..], n, i - 1); }
  }

  /** Looking `n` up after the entry `k` is gone. */
  lemma FindWithout(list: seq<Container>, k: nat, n: string)
    requires Unique(list) && k < |list|
    ensures Find(Without(list, k), n) < |list| - 1 <==> Find(list, n) < |list| && n != list[k].name
    ensures Find(Without(list, k), n) < |list| - 1 ==>
              Without(list, k)[Find(Without(list, k), n)] == list[Find(list, n)]
  {
    var i := Find(list, n);
    forall j | 0 <= j < |list| - 1
      ensures Without(list, k)[j] == list[if j < k then j else j + 1]
    {
      WithoutAt(list, k, j);
    }
    FirstMatch(Without(list, k), n,
               if i == |list| || n == list[k].name then |list| - 1 else if i < k then i else i - 1);
  }

  lemma FindRewritten(list: seq<Container>, k: nat, c: Container, n: string)
    requires k < |list| && c.name == list[k].name
    ensures Find(list[k := c], n) == Find(list, n)
  {
    FirstMatch(list[k := c], n, Find(list, n));
  }

  lemma FindAppended(list: seq<Container>, c: Container, n: string)
    ensures Find(list + [c], n) == if Find(list, n) < |list| then Find(list, n)
                                   else if n == c.name then |list| else |list| + 1
  {
    var i := Find(list, n);
    FirstMatch(list + [c], n, if i < |list| then i else if n == c.name then |list| else |list| + 1);
  }

  lemma DeletedAt(list: seq<Container>, k: nat, n: string)
    requires Unique(list) && k < |list|
    ensures var m, m' := AsMap(list), AsMap(Without(list, k));
            (n in m' <==> n in m && n != list[k].name) && (n in m' ==> m'[n] == m[n])
  {
    Lookup(list, n);
    Lookup(Without(list, k), n);
    FindWithout(list, k, n);
  }

  lemma WithoutUnique(list: seq<Container>, k: nat)
    requires Unique(list) && k < |list|
    ensures Unique(Without(list, k))
  {
    forall i, j | 0 <= i < j < |list| - 1
      ensures Without(list, k)[i].name != Without(list, k)[j].name
    {
      WithoutAt(list, k, i);
      WithoutAt(list, k, j);
    }
  }

  /** On a list without repeated names each request is the map operation of the same name, and
      keeps the names unique; a create must not repeat a listed name. */
  lemma DeleteRefinesMap(list: seq<Container>, k: nat)
    requires Unique(list) && k < |list|
    ensures Unique(Without(list, k))
    ensures AsMap(Without(list, k)) == AsMap(list) - {list[k].name}
  {
    WithoutUnique(list, k);
    var m, m' := AsMap(list), AsMap(Without(list, k));
    forall n
      ensures (n in m' <==> n in m && n != list[k].name) && (n in m' ==> m'[n] == m[n])
    {
      DeletedAt(list, k, n);
    }
  }

  lemma RewrittenAt(list: seq<Container>, k: nat, c: Container, n: string)
    requires Unique(list) && k < |list| && c.name == list[k].name
    ensures var m, m' := AsMap(list)[c.name := c], AsMap(list[k := c]);
            (n in m' <==> n in m) && (n in m' ==> m'[n] == m[n])
  {
    FirstMatch(list, c.name, k);
    Lookup(list, n);
    Lookup(list[k := c], n);
    FindRewritten(list, k, c, n);
  }

  lemma RewriteRefinesMap(list: seq<Container>, k: nat, c: Container)
    requires Unique(list) && k < |list| && c.name == list[k].name
    ensures Unique(list[k := c])
    ensures AsMap(list[k := c]) == AsMap(list)[c.name := c]
  {
    var m, m' := AsMap(list)[c.name := c], AsMap(list[k := c]);
    forall n
      ensures (n in m' <==> n in m) && (n in m' ==> m'[n] == m[n])
    {
      RewrittenAt(list, k, c, n);
    }
  }

  lemma AppendedAt(list: seq<Container>, c: Container, n: string)
    requires Find(list, c.name) == |list|
    ensures var m, m' := AsMap(list)[c.name := c], AsMap(list + [c]);
            (n in m' <==> n in m) && (n in m' ==> m'[n] == m[n])
  {
    Lookup(list, n);
    Lookup(list + [c], n);
    FindAppended(list, c, n);
  }

  lemma AppendUnique(list: seq<Container>, c: Container)
    requires Unique(list) && Find(list, c.name) == |list|
    ensures Unique(list + [c])
  {
  }

  lemma AppendRefinesMap(list: seq<Container>, c: Container)
    requires Unique(list) && Find(list, c.name) == |list|
    ensures Unique(list + [c])
    ensures AsMap(list + [c]) == AsMap(list)[c.name := c]
  {
    AppendUnique(list, c);
    var m, m' := AsMap(list)[c.name := c], AsMap(list + [c]);
    forall n
      ensures (n in m' <==> n in m) && (n in m' ==> m'[n] == m[n])
    {
      AppendedAt(list, c, n);
    }
  }

  lemma HandlersRefineMap(a: Account, name: string)
    requires Unique(a.domains)
    ensures var m := AsMap(a.domains);
            && (Lists(a, name) <==> name in m)
            && (var r := GetDomain(a, name);
                if name in m then
                  && r.reply == DomainBody(m[name].(receiving := RecordsFor(a, name, false)))
                  && AsMap(r.account.domains) == m[name := r.reply.domain]
                  && Unique(r.account.domains)
                else r == Response(a, HttpError(404)))
            && (var r := VerifyDomain(a, name);
                if name in m then
                  && r.reply.DomainBody?
                  && AsMap(r.account.domains) == m[name := r.reply.domain]
                  && Unique(r.account.domains)
                else r == Response(a, HttpError(404)))
            && (var r := DeleteDomain(a, name);
                && Unique(r.account.domains)
                && AsMap(r.account.domains) == if name in a.failed then m else m - {name})
            && (name !in m ==> var r := CreateDomain(a, name);
                && Unique(r.account.domains)
                && AsMap(r.account.domains) == if name in a.failed then m else m[name := NewContainer(a, name)])
  {
    Lookup(a.domains, name);
    var k := Find(a.domains, name);
    if k < |a.domains| {
      DeleteRefinesMap(a.domains, k);
      RewriteRefinesMap(a.domains, k, a.domains[k].(receiving := RecordsFor(a, name, false)));
      RewriteRefinesMap(a.domains, k, VerifyDomain(a, name).reply.domain);
    } else {
      assert AsMap(a.domains) - {name} == AsMap(a.domains);
      AppendRefinesMap(a.domains, NewContainer(a, name));
    }
  }
}
