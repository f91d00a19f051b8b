/** The operator's settings: defaults overridden by a ConfigMap, overridden by a Secret, and the
    requeue delay they lead to. */
module Config {
  import opened Basics

  const INT64_LIMIT: int := 0x8000_0000_0000_0000
  const SECOND: int := 1_000_000_000
  const API_BASE_EU := "https://api.eu.mailgun.net/v4"
  const TOKEN_KEY := "api_token"
  const SERVER_KEY := "api_server"
  const TIMEOUT_KEY := "domain_verification_timeout"

  predicate IsInt64(n: int) {
    -INT64_LIMIT <= n < INT64_LIMIT
  }

  /** Two's complement wrap-around of a 64-bit integer. */
  function Wrap64(n: int): (w: int)
    ensures IsInt64(w)
    ensures IsInt64(n) ==> w == n
  {
    (n + INT64_LIMIT) % (2 * INT64_LIMIT) - INT64_LIMIT
  }

  // ----- strconv.ParseInt(value, 10, 0) on a 64-bit machine -----

  predicate IsDigit(c: char) {
    '0' <= c <= '9'
  }

  predicate AllDigits(s: string) {
    forall i | 0 <= i < |s| :: IsDigit(s[i])
  }

  function DigitValue(c: char): nat
    requires IsDigit(c)
  {
    c as int - '0' as int
  }

  function DigitsValue(s: string): nat
    requires AllDigits(s)
  {
    if |s| == 0 then 0
    else
      var k := |s| - 1;
      10 * DigitsValue(s[..k]) + DigitValue(s[k])
  }

  function ParseInt(s: string): Option<int> {
    var signed := |s| > 0 && (s[0] == '+' || s[0] == '-');
    var digits := if signed then s[1..] else s;
    if |digits| == 0 || !AllDigits(digits) then None
    else
      var v: int := if signed && s[0] == '-' then 0 - (DigitsValue(digits) as int) else DigitsValue(digits);
      if IsInt64(v) then Some(v) else None
  }

  function Digits(n: nat): (s: string)
    ensures |s| > 0 && AllDigits(s) && DigitsValue(s) == n
  {
    var last := [('0' as int + n % 10) as char];
    if n < 10 then
      assert last[..0] == "";
      last
    else
      var s := Digits(n / 10) + last;
      assert s[..|s| - 1] == Digits(n / 10);
      s
  }

  /** An integer in decimal, as a user writes it. */
  function Decimal(n: int): string {
    if n < 0 then "-" + Digits(-n) else Digits(n)
  }

  /** Every 64-bit integer can be configured in decimal, and no other integer is accepted. */
  lemma DecimalParses(n: int)
    ensures ParseInt(Decimal(n)) == if IsInt64(n) then Some(n) else None
  {
    var s := Decimal(n);
    if n < 0 {
      assert s[1..] == Digits(-n);
    } else {
      assert IsDigit(s[0]);
    }
  }

  // ----- the requeue delay -----

  /** `time.Duration(secs) * time.Second` in nanoseconds. */
  function Delay(secs: int): int {
    Wrap64(secs * SECOND)
  }

  /** The delay is the configured number of seconds exactly within 9223372036 seconds of zero;
      so each positive setting up to there requeues, zero does not, and the next one up wraps
      around to a negative delay. */
  lemma DelayIsExact(secs: int)
    ensures Delay(secs) == secs * SECOND <==> -9223372036 <= secs <= 9223372036
    ensures 1 <= secs <= 9223372036 ==> Delay(secs) > 0
    ensures Delay(0) == 0 && Delay(9223372037) < 0
  {
  }

  // ----- the settings -----

  /** What reading a ConfigMap or Secret gives. */
  datatype Source = Present(data: map<string, string>) | NotFound | Unreadable

  datatype Outcome = Loaded | ReadFailed | Panicked

  datatype FieldName = OperatorNamespace | APIToken | APIServer | DomainVerifyDuration

  datatype Kind = Text | Whole

  /** A field of the settings struct with its json tag. */
  datatype Field = Field(name: FieldName, tag: string, kind: Kind)

  function Tag(key: string): string {
    key + "," + "omitempty"
  }

  const FIELDS: seq<Field> := [
    Field(OperatorNamespace, "", Text),
    Field(APIToken, Tag(TOKEN_KEY), Text),
    Field(APIServer, Tag(SERVER_KEY), Text),
    Field(DomainVerifyDuration, Tag(TIMEOUT_KEY), Whole)]

  /** The part of a tag before the first comma. */
  function TagKey(tag: string): string {
    if |tag| == 0 || tag[0] == ',' then "" else [tag[0]] + TagKey(tag[1..])
  }

  lemma {:induction false} TagKeyOf(key: string, options: string)
    requires ',' !in key
    ensures TagKey(key + "," + options) == key
  {
    var tag := key + "," + options;
    if |key| > 0 {
      assert tag[0] == key[0] && tag[1..] == key[1..] + "," + options;
      TagKeyOf(key[1..], options);
    }
  }

  lemma TokenTag()
    ensures TagKey(Tag(TOKEN_KEY)) == TOKEN_KEY
  {
    TagKeyOf(TOKEN_KEY, "omitempty");
  }

  lemma ServerTag()
    ensures TagKey(Tag(SERVER_KEY)) == SERVER_KEY
  {
    TagKeyOf(SERVER_KEY, "omitempty");
  }

  lemma TimeoutTag()
    ensures TagKey(Tag(TIMEOUT_KEY)) == TIMEOUT_KEY
  {
    TagKeyOf(TIMEOUT_KEY, "omitempty");
  }

  function Contents(s: Source): map<string, string> {
    if s.Present? then s.data else map[]
  }

  /** The value a text setting takes: the Secret's, else the ConfigMap's, else the one before. */
  function Layered(key: string, secret: map<string, string>, config: map<string, string>, before: string): string {
    if key in secret then secret[key] else if key in config then config[key] else before
  }

  function LayeredInt(key: string, secret: map<string, string>, config: map<string, string>, before: int): Option<int> {
    if key in secret then ParseInt(secret[key]) else if key in config then ParseInt(config[key]) else Some(before)
  }

  lemma LayersCompose(key: string, secret: map<string, string>, config: map<string, string>)
    ensures forall before :: Layered(key, config + secret, map[], before) == Layered(key, secret, config, before)
    ensures forall before :: LayeredInt(key, config + secret, map[], before) == LayeredInt(key, secret, config, before)
  {
  }

  method MergeInto(base: map<string, string>, extra: map<string, string>) returns (merged: map<string, string>)
    ensures merged == base + extra
  {
    merged := base;
    var todo := extra.Keys;
    while todo != {}
      invariant todo <= extra.Keys
      invariant merged.Keys == base.Keys + (extra.Keys - todo)
      invariant forall k | k in merged :: merged[k] == if k in extra && k !in todo then extra[k] else base[k]
      decreases todo
    {
      var k :| k in todo;
      merged := merged[k := extra[k]];
      todo := todo - {k};
    }
  }

  method Gather(configMapName: string, configMap: Source, secretName: string, secret: Source)
    returns (gathered: bool, configData: map<string, string>)
    ensures gathered <==> !(configMapName != "" && configMap.Unreadable?) && !(secretName != "" && secret.Unreadable?)
    ensures gathered ==> configData == (if configMapName == "" then map[] else Contents(configMap))
                                       + (if secretName == "" then map[] else Contents(secret))
  {
    configData := map[];
    if configMapName != "" {
      if configMap.Unreadable? { return false, configData; }
      configData := MergeInto(configData, Contents(configMap));
    }
    if secretName != "" {
      if secret.Unreadable? { return false, configData; }
      configData := MergeInto(configData, Contents(secret));
    }
    gathered := true;
  }

  class Data {
    var operatorNamespace: string
    var apiToken: string
    var apiServer: string
    var domainVerifyDuration: int

    constructor ()
      ensures operatorNamespace == "mailgun-operator-system" && domainVerifyDuration == 300
      ensures apiToken == "" && apiServer == API_BASE_EU
    {
      operatorNamespace := "mailgun-operator-system";
      domainVerifyDuration := 300;
      apiToken := "";
      apiServer := API_BASE_EU;
    }

    /** Loads the settings.  An empty name skips that source; an unreadable source stops the load
        with nothing changed; an interval that is no 64-bit integer panics; otherwise every tagged
        field takes the Secret's value, else the ConfigMap's, else keeps its own, and the
        namespace is never touched. */
    method LoadConfiguration(configMapName: string, configMap: Source, secretName: string, secret: Source)
      returns (outcome: Outcome)
      modifies this
      ensures operatorNamespace == old(operatorNamespace)
      ensures var c := if configMapName == "" then map[] else Contents(configMap);
              var s := if secretName == "" then map[] else Contents(secret);
              var interval := LayeredInt(TIMEOUT_KEY, s, c, old(domainVerifyDuration));
              && (outcome == ReadFailed <==> (configMapName != "" && configMap.Unreadable?)
                                             || (secretName != "" && secret.Unreadable?))
              && (outcome == ReadFailed ==> apiToken == old(apiToken) && apiServer == old(apiServer)
                                            && domainVerifyDuration == old(domainVerifyDuration))
              && (outcome != ReadFailed ==>
                    && apiToken == Layered(TOKEN_KEY, s, c, old(apiToken))
                    && apiServer == Layered(SERVER_KEY, s, c, old(apiServer))
                    && (outcome == Panicked <==> interval.None?)
                    && domainVerifyDuration == if interval.Some? then interval.value else old(domainVerifyDuration))
    {
      var gathered, configData := Gather(configMapName, configMap, secretName, secret);
      if !gathered { return ReadFailed; }
      ghost var c := if configMapName == "" then map[] else Contents(configMap);
      ghost var s := if secretName == "" then map[] else Contents(secret);
      LayersCompose(TOKEN_KEY, s, c);
      LayersCompose(SERVER_KEY, s, c);
      LayersCompose(TIMEOUT_KEY, s, c);
      if |configData| > 0 {
        outcome := HashToConfig(configData);
      } else {
        assert configData == map[];
        outcome := Loaded;
      }
    }

    /** The field loop of hashToConfig. */
    method HashToConfig(configData: map<string, string>) returns (outcome: Outcome)
      modifies this
      ensures operatorNamespace == old(operatorNamespace)
      ensures apiToken == Layered(TOKEN_KEY, configData, map[], old(apiToken))
      ensures apiServer == Layered(SERVER_KEY, configData, map[], old(apiServer))
      ensures outcome != ReadFailed
      ensures var interval := LayeredInt(TIMEOUT_KEY, configData, map[], old(domainVerifyDuration));
              && (outcome == Panicked <==> interval.None?)
              && domainVerifyDuration == if interval.Some? then interval.value else old(domainVerifyDuration)
    {
      TokenTag();
      ServerTag();
      TimeoutTag();
      for i := 0 to |FIELDS|
        invariant operatorNamespace == old(operatorNamespace)
        invariant apiToken == if i > 1 then Layered(TOKEN_KEY, configData, map[], old(apiToken)) else old(apiToken)
        invariant apiServer == if i > 2 then Layered(SERVER_KEY, configData, map[], old(apiServer)) else old(apiServer)
        invariant var interval := LayeredInt(TIMEOUT_KEY, configData, map[], old(domainVerifyDuration));
                  if i > 3 then interval == Some(domainVerifyDuration) else domainVerifyDuration == old(domainVerifyDuration)
      {
        var field := FIELDS[i];
        if field.tag == "" { continue; }
        var key := TagKey(field.tag);
        if key !in configData { continue; }
        var value := configData[key];
        match field.kind {
          case Text =>
            if field.name == APIToken { apiToken := value; }
            else if field.name == APIServer { apiServer := value; }
            else { operatorNamespace := value; }
          case Whole =>
            var parsed := ParseInt(value);
            if parsed.None? { return Panicked; }
            domainVerifyDuration := parsed.value;
        }
      }
      outcome := Loaded;
    }
  }
}
