/** What a published DNSEndpoint holds, told record by record of Mailgun's own lists, and the proof
    that the compiler publishes exactly that. */
module DnsPublication {
  import opened Basics
  import opened Account
  import opened Dns

  /** Status records that copy Mailgun's, field by field. */
  ghost predicate Copies(theirs: seq<MgRecord>, ours: seq<DnsRecord>) {
    && |ours| == |theirs|
    && (forall i | 0 <= i < |theirs| ::
          && ours[i].name == theirs[i].name && ours[i].recordType == theirs[i].recordType
          && ours[i].value == theirs[i].value && ours[i].priority == theirs[i].priority && ours[i].valid == theirs[i].valid)
  }

  lemma ConversionCopies(theirs: seq<MgRecord>)
    ensures Copies(theirs, FromMailgun(theirs))
  {
  }

  lemma CopiesJoin(a: seq<MgRecord>, b: seq<MgRecord>, a': seq<DnsRecord>, b': seq<DnsRecord>)
    requires Copies(a, a') && Copies(b, b')
    ensures Copies(a + b, a' + b')
  {
  }

  /** A value as external-dns keeps it. */
  ghost predicate Kept(value: string, target: string) {
    if |value| > 0 && value[|value| - 1] == '.' then target + "." == value else target == value
  }

  /** The endpoint of a record of its own: its name, its type, and its value as the one target. */
  ghost predicate IsFor(e: Endpoint, r: MgRecord) {
    r.recordType != "MX" && e.dnsName == r.name && e.recordType == r.recordType && |e.targets| == 1 && Kept(r.value, e.targets[0])
  }

  /** The endpoint of the mail exchangers: on the domain, one target for each. */
  ghost predicate IsExchanger(e: Endpoint, domain: string, records: seq<MgRecord>) {
    && e.dnsName == domain && e.recordType == "MX"
    && (forall i | 0 <= i < |records| && records[i].recordType == "MX" :: HasTarget(e, records[i]))
    && (forall t | 0 <= t < |e.targets| :: exists i :: 0 <= i < |records| && records[i].recordType == "MX" && IsTarget(e.targets[t], records[i]))
  }

  ghost predicate IsTarget(target: string, r: MgRecord) {
    Kept(r.priority + " " + r.value, target)
  }

  ghost predicate HasTarget(e: Endpoint, r: MgRecord) {
    exists t :: 0 <= t < |e.targets| && IsTarget(e.targets[t], r)
  }

  /** A user's record, with the dots off its targets. */
  ghost predicate IsUsers(e: Endpoint, u: Endpoint) {
    && e.dnsName == u.dnsName && e.recordType == u.recordType && |e.targets| == |u.targets|
    && (forall t | 0 <= t < |u.targets| :: Kept(u.targets[t], e.targets[t]))
  }

  ghost predicate ListsRecord(out: seq<Endpoint>, r: MgRecord) {
    exists p :: 0 <= p < |out| && IsFor(out[p], r)
  }

  ghost predicate ListsUsers(out: seq<Endpoint>, u: Endpoint) {
    exists p :: 0 <= p < |out| && IsUsers(out[p], u)
  }

  ghost predicate ListsExchanger(out: seq<Endpoint>, domain: string, records: seq<MgRecord>) {
    exists p :: 0 <= p < |out| && IsExchanger(out[p], domain, records)
  }

  ghost predicate Accounted(e: Endpoint, domain: string, records: seq<MgRecord>, users: seq<Endpoint>) {
    || (exists i :: 0 <= i < |records| && IsFor(e, records[i]))
    || IsExchanger(e, domain, records)
    || (exists u :: 0 <= u < |users| && IsUsers(e, users[u]))
  }

  ghost function Exchangers(records: seq<MgRecord>): nat {
    if |records| == 0 then 0
    else Exchangers(records[..|records| - 1]) + if records[|records| - 1].recordType == "MX" then 1 else 0
  }

  /** Every record that is no mail exchanger, the mail exchangers together if there are any, every
      record of the user's, and nothing else. */
  ghost predicate Publishes(out: seq<Endpoint>, domain: string, records: seq<MgRecord>, users: seq<Endpoint>) {
    && (forall i | 0 <= i < |records| && records[i].recordType != "MX" :: ListsRecord(out, records[i]))
    && (Exchangers(records) > 0 ==> ListsExchanger(out, domain, records))
    && (forall u | 0 <= u < |users| :: ListsUsers(out, users[u]))
    && (forall p | 0 <= p < |out| :: Accounted(out[p], domain, records, users))
    && |out| + Exchangers(records) == |records| + |users| + (if Exchangers(records) > 0 then 1 else 0)
  }

  lemma TrimKeeps(value: string)
    ensures Kept(value, TrimDot(value))
  {
  }

  lemma {:induction false} ExchangersCounted(theirs: seq<MgRecord>, ours: seq<DnsRecord>, k: nat)
    requires Copies(theirs, ours) && k <= |ours|
    ensures Exchangers(theirs[..k]) == |MxRecords(ours, k)|
  {
    if k > 0 {
      ExchangersCounted(theirs, ours, k - 1);
      assert theirs[..k][..k - 1] == theirs[..k - 1];
    }
  }

  /** The records filed apart are some of those compiled. */
  lemma {:induction false} OthersAreSome(records: seq<DnsRecord>, k: nat, p: nat)
    requires k <= |records| && p < |OtherRecords(records, k)|
    ensures exists i :: 0 <= i < k && records[i] == OtherRecords(records, k)[p] && records[i].recordType != MX
  {
    if p < |OtherRecords(records, k - 1)| {
      OthersAreSome(records, k - 1, p);
    } else {
      assert records[k - 1] == OtherRecords(records, k)[p];
    }
  }

  lemma {:induction false} ExchangersAreSome(records: seq<DnsRecord>, k: nat, p: nat)
    requires k <= |records| && p < |MxRecords(records, k)|
    ensures exists i :: 0 <= i < k && records[i] == MxRecords(records, k)[p] && records[i].recordType == MX
  {
    if p < |MxRecords(records, k - 1)| {
      ExchangersAreSome(records, k - 1, p);
    } else {
      assert records[k - 1] == MxRecords(records, k)[p];
    }
  }

  lemma RecordListed(domain: string, theirs: seq<MgRecord>, ours: seq<DnsRecord>, users: seq<Endpoint>, i: nat)
    requires Copies(theirs, ours) && i < |theirs| && theirs[i].recordType != "MX"
    ensures ListsRecord(Compile(domain, ours, users), theirs[i])
  {
    var out := Compile(domain, ours, users);
    RecordIsPublished(domain, ours, users, i);
    TrimKeeps(ours[i].value);
    assert IsFor(out[|OtherRecords(ours, i)|], theirs[i]);
  }

  lemma TargetListed(domain: string, theirs: seq<MgRecord>, ours: seq<DnsRecord>, i: nat)
    requires Copies(theirs, ours) && i < |theirs| && theirs[i].recordType == "MX"
    ensures HasTarget(NewEndpoint(domain, MX, Targets(MxRecords(ours, |ours|))), theirs[i])
  {
    var e := NewEndpoint(domain, MX, Targets(MxRecords(ours, |ours|)));
    Placed(ours, i, |ours|);
    TrimKeeps(MxTarget(ours[i]));
    assert IsTarget(e.targets[|MxRecords(ours, i)|], theirs[i]);
  }

  lemma TargetAccounted(domain: string, theirs: seq<MgRecord>, ours: seq<DnsRecord>, t: nat)
    requires Copies(theirs, ours) && t < |MxRecords(ours, |ours|)|
    ensures var e := NewEndpoint(domain, MX, Targets(MxRecords(ours, |ours|)));
            exists i :: 0 <= i < |theirs| && theirs[i].recordType == "MX" && IsTarget(e.targets[t], theirs[i])
  {
    var e := NewEndpoint(domain, MX, Targets(MxRecords(ours, |ours|)));
    ExchangersAreSome(ours, |ours|, t);
    var i :| 0 <= i < |ours| && ours[i] == MxRecords(ours, |ours|)[t] && ours[i].recordType == MX;
    TrimKeeps(MxTarget(ours[i]));
    assert IsTarget(e.targets[t], theirs[i]);
  }

  lemma ExchangerIsOne(domain: string, theirs: seq<MgRecord>, ours: seq<DnsRecord>)
    requires Copies(theirs, ours)
    ensures IsExchanger(NewEndpoint(domain, MX, Targets(MxRecords(ours, |ours|))), domain, theirs)
  {
    var e := NewEndpoint(domain, MX, Targets(MxRecords(ours, |ours|)));
    forall i | 0 <= i < |theirs| && theirs[i].recordType == "MX"
      ensures HasTarget(e, theirs[i])
    {
      TargetListed(domain, theirs, ours, i);
    }
    forall t | 0 <= t < |e.targets|
      ensures exists i :: 0 <= i < |theirs| && theirs[i].recordType == "MX" && IsTarget(e.targets[t], theirs[i])
    {
      TargetAccounted(domain, theirs, ours, t);
    }
  }

  lemma UserKept(u: Endpoint)
    ensures IsUsers(NewEndpoint(u.dnsName, u.recordType, u.targets), u)
  {
    forall t | 0 <= t < |u.targets|
      ensures Kept(u.targets[t], TrimDot(u.targets[t]))
    {
      TrimKeeps(u.targets[t]);
    }
  }

  lemma PlainAccounted(domain: string, theirs: seq<MgRecord>, ours: seq<DnsRecord>, users: seq<Endpoint>, p: nat)
    requires Copies(theirs, ours) && p < |OtherRecords(ours, |ours|)|
    ensures p < |Compile(domain, ours, users)| && Accounted(Compile(domain, ours, users)[p], domain, theirs, users)
  {
    OthersAreSome(ours, |ours|, p);
    var i :| 0 <= i < |ours| && ours[i] == OtherRecords(ours, |ours|)[p] && ours[i].recordType != MX;
    TrimKeeps(ours[i].value);
    assert IsFor(Compile(domain, ours, users)[p], theirs[i]);
  }

  lemma UserAccounted(domain: string, theirs: seq<MgRecord>, ours: seq<DnsRecord>, users: seq<Endpoint>, u: nat)
    requires u < |users|
    ensures var p := |OtherRecords(ours, |ours|)| + (if |MxRecords(ours, |ours|)| > 0 then 1 else 0) + u;
            && p < |Compile(domain, ours, users)|
            && Accounted(Compile(domain, ours, users)[p], domain, theirs, users)
            && IsUsers(Compile(domain, ours, users)[p], users[u])
  {
    Layout(domain, ours, users);
    UserKept(users[u]);
  }

  lemma ExchangerAccounted(domain: string, theirs: seq<MgRecord>, ours: seq<DnsRecord>, users: seq<Endpoint>)
    requires Copies(theirs, ours) && |MxRecords(ours, |ours|)| > 0
    ensures var p := |OtherRecords(ours, |ours|)|;
            p < |Compile(domain, ours, users)| && IsExchanger(Compile(domain, ours, users)[p], domain, theirs)
  {
    ExchangerIsOne(domain, theirs, ours);
    assert Compile(domain, ours, users)[|OtherRecords(ours, |ours|)|] == NewEndpoint(domain, MX, Targets(MxRecords(ours, |ours|)));
  }

  lemma RestAccounted(domain: string, theirs: seq<MgRecord>, ours: seq<DnsRecord>, users: seq<Endpoint>, p: nat)
    requires Copies(theirs, ours) && |OtherRecords(ours, |ours|)| <= p < |Compile(domain, ours, users)|
    ensures Accounted(Compile(domain, ours, users)[p], domain, theirs, users)
  {
    var plain, mx := |OtherRecords(ours, |ours|)|, |MxRecords(ours, |ours|)|;
    Layout(domain, ours, users);
    if mx > 0 && p == plain {
      ExchangerAccounted(domain, theirs, ours, users);
    } else {
      UserAccounted(domain, theirs, ours, users, p - plain - if mx > 0 then 1 else 0);
    }
  }

  lemma UserListed(domain: string, ours: seq<DnsRecord>, users: seq<Endpoint>, u: nat)
    requires u < |users|
    ensures ListsUsers(Compile(domain, ours, users), users[u])
  {
    UserAccounted(domain, [], ours, users, u);
  }

  /** For all records, and all records of the user's, the compiled list publishes them. */
  lemma CompilePublishes(domain: string, theirs: seq<MgRecord>, ours: seq<DnsRecord>, users: seq<Endpoint>)
    requires Copies(theirs, ours)
    ensures Publishes(Compile(domain, ours, users), domain, theirs, users)
  {
    var out := Compile(domain, ours, users);
    forall i | 0 <= i < |theirs| && theirs[i].recordType != "MX"
      ensures ListsRecord(out, theirs[i])
    {
      RecordListed(domain, theirs, ours, users, i);
    }
    forall u | 0 <= u < |users|
      ensures ListsUsers(out, users[u])
    {
      UserListed(domain, ours, users, u);
    }
    forall p | 0 <= p < |out|
      ensures Accounted(out[p], domain, theirs, users)
    {
      if p < |OtherRecords(ours, |ours|)| {
        PlainAccounted(domain, theirs, ours, users, p);
      } else {
        RestAccounted(domain, theirs, ours, users, p);
      }
    }
    ExchangersCounted(theirs, ours, |ours|);
    assert theirs[..|ours|] == theirs;
    Layout(domain, ours, users);
    ExchangerListed(domain, theirs, ours, users);
  }

  lemma ExchangerListed(domain: string, theirs: seq<MgRecord>, ours: seq<DnsRecord>, users: seq<Endpoint>)
    requires Copies(theirs, ours)
    ensures |MxRecords(ours, |ours|)| > 0 ==> ListsExchanger(Compile(domain, ours, users), domain, theirs)
  {
    if |MxRecords(ours, |ours|)| > 0 { ExchangerAccounted(domain, theirs, ours, users); }
  }
}
