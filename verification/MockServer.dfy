/** The mock Mailgun server with its fields updated in place, each hook and handler proved to
    do what module Account specifies.  The handlers run under one mutex, so each is one step. */
module MockServer {
  import opened Account
  import Spec = Account

  /** The records of a domain: the receiving ones are all MX records and valid iff the MX records
      are set, the sending ones are none and valid iff the domain is active. */
  method BuildRecords(domainName: string, sendingRecords: bool, activeDomain: bool, activeMXRecord: bool)
    returns (records: seq<MgRecord>)
    ensures records == Records(domainName, sendingRecords, activeDomain, activeMXRecord)
    ensures |records| > 0 && forall j | 0 <= j < |records| ::
              && (records[j].recordType == "MX" <==> !sendingRecords)
              && (records[j].valid == VALID_DNS <==> if sendingRecords then activeDomain else activeMXRecord)
  {
    var dnsValid, mxDnsValid := UNKNOWN_DNS, UNKNOWN_DNS;
    if activeDomain { dnsValid := VALID_DNS; }
    if activeMXRecord { mxDnsValid := VALID_DNS; }
    if sendingRecords {
      records := [
        MgRecord(domainName, "", "TXT", dnsValid, "v=spf1 include:mailgun.org ~all"),
        MgRecord("d.mail." + domainName, "", "TXT", dnsValid, "k=rsa; p=MIGfMA0GCSqGSIb3DQEBAQUA...."),
        MgRecord("email." + domainName, "", "CNAME", dnsValid, "mailgun.org")];
    } else {
      records := [
        MgRecord("", "10", "MX", mxDnsValid, "mxa.mailgun.org"),
        MgRecord("", "10", "MX", mxDnsValid, "mxb.mailgun.org")];
    }
  }

  class MailgunMockServer {
    var activeDomains: seq<string>
    var activeMXDomains: seq<string>
    var failedDomains: seq<string>
    var domainList: seq<Container>
    var routes: map<string, MgRoute>
    var failRoutes: map<string, seq<string>>
    var clock: nat

    ghost function Model(): Account
      reads this
    {
      Spec.Account(domainList, activeDomains, activeMXDomains, failedDomains, routes, failRoutes, clock)
    }

    constructor ()
      ensures Model() == Spec.Account([], [], [], [], map[], map[], 0)
    {
      activeDomains, activeMXDomains, failedDomains, domainList := [], [], [], [];
      routes, failRoutes, clock := map[], map[], 0;
    }

    // ----- hooks of the tests -----

    method AddDomain(domainName: string)
      modifies this
      ensures Model() == Spec.AddDomain(old(Model()), domainName)
    {
      var container := Build(domainName);
      domainList := domainList + [container];
      clock := clock + 1;
    }

    method ActivateDomain(domainName: string)
      modifies this
      ensures Model() == Serve(old(Model()), Activate(domainName))
    {
      activeDomains := activeDomains + [domainName];
    }

    method ActivateMXDomain(domainName: string)
      modifies this
      ensures Model() == Serve(old(Model()), ActivateMX(domainName))
    {
      activeMXDomains := activeMXDomains + [domainName];
    }

    method FailedDomain(domainName: string)
      modifies this
      ensures Model() == Serve(old(Model()), FailDomain(domainName))
    {
      failedDomains := failedDomains + [domainName];
    }

    method DeleteDomain(domainName: string)
      modifies this
      ensures Model() == DropDomain(old(Model()), domainName)
    {
      for i := 0 to |domainList|
        invariant Model() == old(Model())
        invariant forall j | 0 <= j < i :: domainList[j].name != domainName
      {
        if domainList[i].name == domainName {
          FirstMatch(domainList, domainName, i);
          domainList := domainList[..i] + domainList[i + 1..];
          return;
        }
      }
      FirstMatch(domainList, domainName, |domainList|);
    }

    method FailRoutes(action: string, id: string)
      modifies this
      ensures Model() == Spec.FailRoutes(old(Model()), action, id)
    {
      if action !in failRoutes {
        failRoutes := failRoutes[action := []];
      }
      failRoutes := failRoutes[action := failRoutes[action] + [id]];
    }

    // ----- domain handlers -----

    /** The domain record and the two record lists of a new entry. */
    method Build(domainName: string) returns (container: Container)
      ensures container == NewContainer(Model(), domainName)
      ensures container.name == domainName && container.smtpLogin == "postmaster@" + domainName
      ensures container.state == if domainName in activeDomains then "active" else "unverified"
    {
      var state := UNVERIFIED;
      if domainName in activeDomains { state := ACTIVE; }
      var receiving := BuildRecords(domainName, false, domainName in activeDomains, domainName in activeMXDomains);
      var sending := BuildRecords(domainName, true, domainName in activeDomains, domainName in activeMXDomains);
      container := Container(domainName, state, clock, "postmaster@" + domainName, receiving, sending);
    }

    method HandleCreateDomain(domainName: string) returns (reply: Reply)
      modifies this
      ensures CreateDomain(old(Model()), domainName) == Response(Model(), reply)
    {
      if domainName in failedDomains {
        return HttpError(500);
      }
      var container := Build(domainName);
      domainList := domainList + [container];
      clock := clock + 1;
      reply := DomainBody(container);
    }

    method HandleGetDomain(domainName: string) returns (reply: Reply)
      modifies this
      ensures GetDomain(old(Model()), domainName) == Response(Model(), reply)
    {
      for i := 0 to |domainList|
        invariant Model() == old(Model())
        invariant forall j | 0 <= j < i :: domainList[j].name != domainName
      {
        if domainName == domainList[i].name {
          FirstMatch(domainList, domainName, i);
          var receiving := BuildRecords(domainName, false, domainName in activeDomains, domainName in activeMXDomains);
          domainList := domainList[i := domainList[i].(receiving := receiving)];
          return DomainBody(domainList[i]);
        }
      }
      FirstMatch(domainList, domainName, |domainList|);
      reply := HttpError(404);
    }

    method HandleVerifyDomain(domainName: string) returns (reply: Reply)
      modifies this
      ensures VerifyDomain(old(Model()), domainName) == Response(Model(), reply)
    {
      var activateDomain := false;
      if domainName in activeDomains { activateDomain := true; }
      for i := 0 to |domainList|
        invariant Model() == old(Model())
        invariant forall j | 0 <= j < i :: domainList[j].name != domainName
      {
        if domainName == domainList[i].name {
          FirstMatch(domainList, domainName, i);
          if activateDomain {
            domainList := domainList[i := domainList[i].(state := ACTIVE)];
          }
          MarkReceiving(i);
          MarkSending(i);
          return DomainBody(domainList[i]);
        }
      }
      FirstMatch(domainList, domainName, |domainList|);
      reply := HttpError(404);
    }

    /** Writes "valid" into the receiving records of entry `i`, one after the other. */
    method MarkReceiving(i: nat)
      requires i < |domainList|
      modifies this`domainList
      ensures var c := old(domainList)[i];
              domainList == old(domainList)[i := c.(receiving := MarkValid(c.receiving))]
    {
      ghost var c := domainList[i];
      for j := 0 to |domainList[i].receiving|
        invariant |domainList| == |old(domainList)|
        invariant domainList == old(domainList)[i := c.(receiving := domainList[i].receiving)]
        invariant |domainList[i].receiving| == |c.receiving|
        invariant forall t | 0 <= t < j :: domainList[i].receiving[t] == c.receiving[t].(valid := VALID_DNS)
        invariant forall t | j <= t < |c.receiving| :: domainList[i].receiving[t] == c.receiving[t]
      {
        var records := domainList[i].receiving;
        domainList := domainList[i := domainList[i].(receiving := records[j := records[j].(valid := VALID_DNS)])];
      }
      assert domainList[i].receiving == MarkValid(c.receiving);
    }

    method MarkSending(i: nat)
      requires i < |domainList|
      modifies this`domainList
      ensures var c := old(domainList)[i];
              domainList == old(domainList)[i := c.(sending := MarkValid(c.sending))]
    {
      ghost var c := domainList[i];
      for j := 0 to |domainList[i].sending|
        invariant |domainList| == |old(domainList)|
        invariant domainList == old(domainList)[i := c.(sending := domainList[i].sending)]
        invariant |domainList[i].sending| == |c.sending|
        invariant forall t | 0 <= t < j :: domainList[i].sending[t] == c.sending[t].(valid := VALID_DNS)
        invariant forall t | j <= t < |c.sending| :: domainList[i].sending[t] == c.sending[t]
      {
        var records := domainList[i].sending;
        domainList := domainList[i := domainList[i].(sending := records[j := records[j].(valid := VALID_DNS)])];
      }
      assert domainList[i].sending == MarkValid(c.sending);
    }

    method HandleDeleteDomain(domainName: string) returns (reply: Reply)
      modifies this
      ensures Spec.DeleteDomain(old(Model()), domainName) == Response(Model(), reply)
    {
      if domainName in failedDomains {
        return HttpError(500);
      }
      for i := 0 to |domainList|
        invariant Model() == old(Model())
        invariant forall j | 0 <= j < i :: domainList[j].name != domainName
      {
        if domainName == domainList[i].name {
          FirstMatch(domainList, domainName, i);
          domainList := domainList[..i] + domainList[i + 1..];
          return Message;
        }
      }
      FirstMatch(domainList, domainName, |domainList|);
      reply := HttpError(404);
    }

    // ----- route handlers -----

    /** `random` stands for the ten random letters of the id. */
    method HandleCreateRoute(form: RouteForm, random: string) returns (reply: Reply)
      modifies this
      ensures CreateRoute(old(Model()), form, "route-" + random) == Response(Model(), reply)
    {
      if form.description == "fail" {
        return HttpError(500);
      }
      var priority := 0;
      if form.priority != Absent {
        if form.priority.Garbage? { return HttpError(400); }
        priority := form.priority.n;
      }
      var id := "route-" + random;
      var newRoute := MgRoute(id, priority, form.actions, form.description, form.expression);
      routes := routes[id := newRoute];
      reply := RouteBody(newRoute);
    }

    method HandleGetRoute(id: string) returns (reply: Reply)
      ensures GetRoute(Model(), id) == Response(Model(), reply)
    {
      if id == "" {
        return HttpError(400);
      }
      if "get" in failRoutes {
        if id in failRoutes["get"] { return HttpError(500); }
      }
      if id !in routes {
        return HttpError(404);
      }
      reply := RouteBody(routes[id]);
    }

    method HandleDeleteRoute(id: string) returns (reply: Reply)
      modifies this
      ensures DeleteRoute(old(Model()), id) == Response(Model(), reply)
    {
      if id == "" {
        return HttpError(400);
      }
      if "delete" in failRoutes {
        if id in failRoutes["delete"] { return HttpError(500); }
      }
      routes := routes - {id};
      reply := Message;
    }

    method HandleUpdateRoute(id: string, form: RouteForm) returns (reply: Reply)
      modifies this
      ensures UpdateRoute(old(Model()), id, form) == Response(Model(), reply)
    {
      if id == "" {
        return HttpError(400);
      }
      if id !in routes {
        return HttpError(404);
      }
      var route := routes[id];
      if |form.actions| > 0 && form.actions[0] != "" {
        route := route.(actions := form.actions);
      }
      if form.priority != Absent {
        if form.priority.Garbage? { return HttpError(400); }
        route := route.(priority := form.priority.n);
      }
      if form.description != "" {
        route := route.(description := form.description);
      }
      if form.expression != "" {
        route := route.(expression := form.expression);
      }
      routes := routes[id := route];
      reply := RouteBody(route);
    }
  }
}
