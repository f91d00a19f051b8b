/** DNS records in a Domain's status, and the external-dns endpoints compiled from them.

    `NewEndpoint` stands for the constructor of the external-dns library: it keeps name and
    type and cuts one trailing dot off every target. */
module Dns {
  import opened Basics
  import opened Account

  datatype DnsRecord = DnsRecord(name: string, priority: string, recordType: string, valid: string, value: string)

  datatype Endpoint = Endpoint(dnsName: string, recordType: string, targets: seq<string>)

  const MX := "MX"

  function Convert(r: MgRecord): DnsRecord {
    DnsRecord(r.name, r.priority, r.recordType, r.valid, r.value)
  }

  function FromMailgun(records: seq<MgRecord>): (result: seq<DnsRecord>)
    ensures |result| == |records|
    ensures forall i | 0 <= i < |records| :: result[i] == Convert(records[i])
  {
    if |records| == 0 then [] else [Convert(records[0])] + FromMailgun(records[1..])
  }

  /** The loop of mgDNSRecordsToDnsRecords. */
  method ConvertRecords(records: seq<MgRecord>) returns (result: seq<DnsRecord>)
    ensures result == FromMailgun(records)
  {
    var filled := new DnsRecord[|records|](_ => DnsRecord("", "", "", "", ""));
    for i := 0 to |records|
      invariant forall j | 0 <= j < i :: filled[j] == Convert(records[j])
    {
      filled[i] := DnsRecord(records[i].name, records[i].priority, records[i].recordType, records[i].valid, records[i].value);
    }
    result := filled[..];
  }

  // ----- the constructor of the library -----

  predicate EndsInDot(s: string) {
    |s| > 0 && s[|s| - 1] == '.'
  }

  function TrimDot(s: string): string {
    if EndsInDot(s) then s[..|s| - 1] else s
  }

  function NewEndpoint(dnsName: string, recordType: string, targets: seq<string>): Endpoint {
    Endpoint(dnsName, recordType, seq(|targets|, i requires 0 <= i < |targets| => TrimDot(targets[i])))
  }

  // ----- the compiler -----

  function MxTarget(r: DnsRecord): string {
    r.priority + " " + r.value
  }

  /** The mail exchangers among the first `k` records, in order. */
  function MxRecords(records: seq<DnsRecord>, k: nat): seq<DnsRecord>
    requires k <= |records|
  {
    if k == 0 then []
    else MxRecords(records, k - 1) + if records[k - 1].recordType == MX then [records[k - 1]] else []
  }

  function OtherRecords(records: seq<DnsRecord>, k: nat): seq<DnsRecord>
    requires k <= |records|
  {
    if k == 0 then []
    else OtherRecords(records, k - 1) + if records[k - 1].recordType == MX then [] else [records[k - 1]]
  }

  function Targets(mx: seq<DnsRecord>): seq<string> {
    seq(|mx|, i requires 0 <= i < |mx| => MxTarget(mx[i]))
  }

  function Plain(records: seq<DnsRecord>): seq<Endpoint> {
    seq(|records|, i requires 0 <= i < |records| =>
      NewEndpoint(records[i].name, records[i].recordType, [records[i].value]))
  }

  function Extras(users: seq<Endpoint>): seq<Endpoint> {
    seq(|users|, i requires 0 <= i < |users| =>
      NewEndpoint(users[i].dnsName, users[i].recordType, users[i].targets))
  }

  /** What createExternalDNSEntity publishes for a domain whose status lists `records`, the
      receiving ones first. */
  function Compile(domain: string, records: seq<DnsRecord>, users: seq<Endpoint>): seq<Endpoint> {
    var mx := MxRecords(records, |records|);
    Plain(OtherRecords(records, |records|))
    + (if |mx| > 0 then [NewEndpoint(domain, MX, Targets(mx))] else [])
    + Extras(users)
  }

  /** The loops of createExternalDNSEntity: one pass that files every record as a mail exchanger
      or as an endpoint of its own, then the mail exchangers together, then the user's records. */
  method BuildEndpoints(domain: string, receiving: seq<DnsRecord>, sending: seq<DnsRecord>, users: seq<Endpoint>)
    returns (endpoints: seq<Endpoint>)
    ensures endpoints == Compile(domain, receiving + sending, users)
  {
    var records := receiving + sending;
    endpoints := [];
    var mxRecords: seq<string> := [];
    for i := 0 to |records|
      invariant endpoints == Plain(OtherRecords(records, i))
      invariant mxRecords == Targets(MxRecords(records, i))
    {
      var record := records[i];
      if record.recordType == "MX" {
        mxRecords := mxRecords + [record.priority + " " + record.value];
      } else {
        endpoints := endpoints + [NewEndpoint(record.name, record.recordType, [record.value])];
      }
    }
    if |mxRecords| > 0 {
      endpoints := endpoints + [NewEndpoint(domain, "MX", mxRecords)];
    }
    ghost var before := endpoints;
    for i := 0 to |users|
      invariant endpoints == before + Extras(users)[..i]
    {
      endpoints := endpoints + [NewEndpoint(users[i].dnsName, users[i].recordType, users[i].targets)];
    }
  }

  // ----- what the compilation keeps -----

  /** Each record lands at the place given by how many of its sort come before it. */
  lemma {:induction false} Placed(records: seq<DnsRecord>, i: nat, k: nat)
    requires i < k <= |records|
    ensures if records[i].recordType == MX
            then |MxRecords(records, i)| < |MxRecords(records, k)|
                 && MxRecords(records, k)[|MxRecords(records, i)|] == records[i]
            else |OtherRecords(records, i)| < |OtherRecords(records, k)|
                 && OtherRecords(records, k)[|OtherRecords(records, i)|] == records[i]
  {
    if i < k - 1 { Placed(records, i, k - 1); }
  }

  lemma {:induction false} Counted(records: seq<DnsRecord>, k: nat)
    requires k <= |records|
    ensures |MxRecords(records, k)| + |OtherRecords(records, k)| == k
    ensures |MxRecords(records, k)| > 0 <==> exists i :: 0 <= i < k && records[i].recordType == MX
    ensures forall j | 0 <= j < |MxRecords(records, k)| :: MxRecords(records, k)[j] in records
                                                           && MxRecords(records, k)[j].recordType == MX
  {
    if k > 0 { Counted(records, k - 1); }
  }

  /** The published list holds, in order, one endpoint for every record that is no mail exchanger,
      one MX endpoint on the domain itself exactly when there is a mail exchanger, and the user's
      own records; every record is found at its place, and nothing else is there. */
  lemma Layout(domain: string, records: seq<DnsRecord>, users: seq<Endpoint>)
    ensures var out := Compile(domain, records, users);
            var n := |records|;
            var mx, plain := |MxRecords(records, n)|, |OtherRecords(records, n)|;
            var p := plain + if mx > 0 then 1 else 0;
            && mx + plain == n && |out| == p + |users|
            && (mx > 0 <==> exists i :: 0 <= i < n && records[i].recordType == MX)
            && (mx > 0 ==> out[plain].dnsName == domain && out[plain].recordType == MX && |out[plain].targets| == mx)
            && (forall i | 0 <= i < |users| :: out[p + i] == NewEndpoint(users[i].dnsName, users[i].recordType, users[i].targets))
  {
    Counted(records, |records|);
  }

  lemma RecordIsPublished(domain: string, records: seq<DnsRecord>, users: seq<Endpoint>, i: nat)
    requires i < |records|
    ensures var out := Compile(domain, records, users);
            var r := records[i];
            var plain := |OtherRecords(records, |records|)|;
            if r.recordType == MX then
              && |MxRecords(records, i)| < |MxRecords(records, |records|)| && plain < |out|
              && |MxRecords(records, i)| < |out[plain].targets|
              && out[plain].targets[|MxRecords(records, i)|] == TrimDot(r.priority + " " + r.value)
            else
              && |OtherRecords(records, i)| < plain <= |out|
              && out[|OtherRecords(records, i)|] == Endpoint(r.name, r.recordType, [TrimDot(r.value)])
  {
    Placed(records, i, |records|);
  }

  /** A target cut at its first space. */
  function Cut(target: string): (string, string) {
    if |target| == 0 then ("", "")
    else if target[0] == ' ' then ("", target[1..])
    else var (p, v) := Cut(target[1..]); ([target[0]] + p, v)
  }

  lemma {:induction false} CutJoined(priority: string, rest: string)
    ensures ' ' !in priority ==> Cut(priority + " " + rest) == (priority, rest)
    ensures ' ' !in Cut(priority + " " + rest).0
  {
    var target := priority + " " + rest;
    if |priority| == 0 {
      assert target[0] == ' ' && target[1..] == rest;
    } else {
      var tail := priority[1..];
      assert target[0] == priority[0] && target[1..] == tail + " " + rest;
      CutJoined(tail, rest);
      if ' ' !in priority {
        assert ' ' !in tail;
        assert [priority[0]] + tail == priority;
      }
    }
  }

  /** A mail exchanger can be read back from its published target, section 3.3.9 of RFC 1035's
      preference and exchange, exactly when its priority holds no space and its value does not
      end in a dot. */
  lemma ReadsBack(r: DnsRecord)
    ensures Cut(TrimDot(MxTarget(r))) == (r.priority, r.value) <==> ' ' !in r.priority && !EndsInDot(r.value)
  {
    var target := MxTarget(r);
    CutJoined(r.priority, r.value);
    if EndsInDot(r.value) {
      var short := r.value[..|r.value| - 1];
      assert TrimDot(target) == r.priority + " " + short;
      CutJoined(r.priority, short);
    } else {
      assert |target| == |r.priority| + 1 + |r.value|;
      assert TrimDot(target) == target;
    }
  }

  /** The MX endpoint lists every mail exchanger once, in order, and all of them can be read back
      exactly when each can. */
  lemma MailExchangersReadBack(domain: string, records: seq<DnsRecord>, users: seq<Endpoint>)
    requires exists i :: 0 <= i < |records| && records[i].recordType == MX
    ensures var mx := MxRecords(records, |records|);
            var plain := |OtherRecords(records, |records|)|;
            var out := Compile(domain, records, users);
            && plain < |out| && |out[plain].targets| == |mx|
            && ((forall j | 0 <= j < |mx| :: Cut(out[plain].targets[j]) == (mx[j].priority, mx[j].value))
                <==> (forall i | 0 <= i < |records| && records[i].recordType == MX ::
                        ' ' !in records[i].priority && !EndsInDot(records[i].value)))
  {
    var n := |records|;
    var mx := MxRecords(records, n);
    var targets := NewEndpoint(domain, MX, Targets(mx)).targets;
    Counted(records, n);
    forall j | 0 <= j < |mx|
      ensures Cut(targets[j]) == (mx[j].priority, mx[j].value) <==> ' ' !in mx[j].priority && !EndsInDot(mx[j].value)
    {
      ReadsBack(mx[j]);
    }
    forall i | 0 <= i < n && records[i].recordType == MX
      ensures exists j :: 0 <= j < |mx| && mx[j] == records[i]
    {
      Placed(records, i, n);
      assert mx[|MxRecords(records, i)|] == records[i];
    }
  }

  /** The records of a domain in its status, as createDomain and each lookup store them. */
  function StatusRecords(c: Container): seq<DnsRecord> {
    FromMailgun(c.receiving) + FromMailgun(c.sending)
  }

  lemma NewDomainSplits(c: Container, name: string, activeDomain: bool, activeMX: bool)
    requires c.receiving == Records(name, false, activeDomain, activeMX) && c.sending == Records(name, true, activeDomain, activeMX)
    ensures var records := StatusRecords(c);
            && |records| == 5
            && OtherRecords(records, 5) == FromMailgun(c.sending) && MxRecords(records, 5) == FromMailgun(c.receiving)
  {
    var records := StatusRecords(c);
    assert forall i | 0 <= i < 5 :: records[i].recordType == MX <==> i < 2;
    assert MxRecords(records, 2) == [records[0], records[1]] && OtherRecords(records, 2) == [] by {
      assert MxRecords(records, 1) == [records[0]] && OtherRecords(records, 1) == [];
    }
    assert MxRecords(records, 5) == MxRecords(records, 4) == MxRecords(records, 3) == MxRecords(records, 2);
    assert OtherRecords(records, 3) == [records[2]];
    assert OtherRecords(records, 4) == [records[2], records[3]];
    assert OtherRecords(records, 5) == [records[2], records[3], records[4]];
  }

  /** A container whose receiving records are two mail exchangers that read back, and whose sending
      records are three others. */
  ghost predicate TwoAndThree(c: Container) {
    && |c.receiving| == 2 && |c.sending| == 3
    && OtherRecords(StatusRecords(c), 5) == FromMailgun(c.sending) && MxRecords(StatusRecords(c), 5) == FromMailgun(c.receiving)
    && (forall i | 0 <= i < 3 :: c.sending[i].recordType != MX)
    && (forall j | 0 <= j < 2 :: ' ' !in c.receiving[j].priority && !EndsInDot(c.receiving[j].value))
  }

  lemma NewDomainIsSuch(a: Account, name: string)
    ensures TwoAndThree(NewContainer(a, name))
  {
    NewDomainSplits(NewContainer(a, name), name, name in a.active, name in a.activeMX);
  }

  lemma SuchPublish(c: Container, name: string, users: seq<Endpoint>)
    requires TwoAndThree(c)
    ensures var out := Compile(name, StatusRecords(c), users);
            && |out| == 4 + |users| && (forall i | 0 <= i < 3 :: out[i].recordType != MX)
            && out[3].dnsName == name && out[3].recordType == MX && |out[3].targets| == 2
            && (forall j | 0 <= j < 2 :: Cut(out[3].targets[j]) == (c.receiving[j].priority, c.receiving[j].value))
  {
    forall j | 0 <= j < 2
      ensures Cut(TrimDot(MxTarget(Convert(c.receiving[j])))) == (c.receiving[j].priority, c.receiving[j].value)
    {
      ReadsBack(Convert(c.receiving[j]));
    }
  }

  /** What the mock server hands out for a new domain is published as three endpoints for the
      sending records and one MX endpoint on the domain, whose two targets read back as they were. */
  lemma NewDomainPublishes(a: Account, name: string, users: seq<Endpoint>)
    ensures var c := NewContainer(a, name);
            var out := Compile(name, StatusRecords(c), users);
            && |c.receiving| == 2 && |out| == 4 + |users| && (forall i | 0 <= i < 3 :: out[i].recordType != MX)
            && out[3].dnsName == name && out[3].recordType == MX && |out[3].targets| == 2
            && (forall j | 0 <= j < 2 :: Cut(out[3].targets[j]) == (c.receiving[j].priority, c.receiving[j].value))
  {
    NewDomainIsSuch(a, name);
    SuchPublish(NewContainer(a, name), name, users);
  }
}
