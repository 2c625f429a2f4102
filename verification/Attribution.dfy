/** Merging explicit attribution into caller-supplied usage metadata, in both SDKs. */
module Attribution {
  import opened Common
  import opened Decimals
  import opened Quantity

  // ---- Text normalisation over ASCII ----

  predicate GoSpace(c: char) {
    c == ' ' || '\t' <= c <= '\r'
  }

  predicate PythonSpace(c: char) {
    GoSpace(c) || '\U{1c}' <= c <= '\U{1f}'
  }

  function TrimLeft(space: char -> bool, s: string): string {
    if s != "" && space(s[0]) then TrimLeft(space, s[1..]) else s
  }

  function TrimRight(space: char -> bool, s: string): string {
    if s != "" && space(s[|s| - 1]) then TrimRight(space, s[..|s| - 1]) else s
  }

  function Trim(space: char -> bool, s: string): string {
    TrimRight(space, TrimLeft(space, s))
  }

  predicate Trimmed(space: char -> bool, s: string) {
    s == "" || (!space(s[0]) && !space(s[|s| - 1]))
  }

  function UpperChar(c: char): char {
    if 'a' <= c <= 'z' then (c as int - 32) as char else c
  }

  function Upper(s: string): (u: string)
    ensures |u| == |s|
  {
    seq(|s|, i requires 0 <= i < |s| => UpperChar(s[i]))
  }

  predicate CurrencyCode(s: string) {
    |s| == 3 && forall i :: 0 <= i < 3 ==> 'A' <= s[i] <= 'Z'
  }

  lemma {:induction false} TrimLeftResult(space: char -> bool, s: string)
    ensures var t := TrimLeft(space, s); t == "" || !space(t[0])
  {
    if s != "" && space(s[0]) { TrimLeftResult(space, s[1..]); }
  }

  lemma {:induction false} TrimRightResult(space: char -> bool, s: string)
    ensures var t := TrimRight(space, s);
            (t == "" || !space(t[|t| - 1])) && t <= s
  {
    if s != "" && space(s[|s| - 1]) { TrimRightResult(space, s[..|s| - 1]); }
  }

  /** Trimming yields a trimmed text, and leaves trimmed texts alone. */
  lemma TrimIsTrimmed(space: char -> bool, s: string)
    ensures Trimmed(space, Trim(space, s)) && Trim(space, Trim(space, s)) == Trim(space, s)
  {
    TrimLeftResult(space, s);
    TrimRightResult(space, TrimLeft(space, s));
  }

  predicate AllSpace(space: char -> bool, s: string) {
    forall i :: 0 <= i < |s| ==> space(s[i])
  }

  /** The ASCII characters each SDK strips. */
  lemma SpacesExactly(c: char)
    ensures GoSpace(c) <==> c as int in {9, 10, 11, 12, 13, 32}
    ensures PythonSpace(c) <==> c as int in {9, 10, 11, 12, 13, 28, 29, 30, 31, 32}
  {
  }

  lemma {:induction false} TrimLeftDrops(space: char -> bool, s: string) returns (front: string)
    ensures s == front + TrimLeft(space, s) && AllSpace(space, front)
  {
    if s != "" && space(s[0]) {
      var rest := TrimLeftDrops(space, s[1..]);
      front := [s[0]] + rest;
    } else {
      front := "";
    }
  }

  lemma {:induction false} TrimRightDrops(space: char -> bool, s: string) returns (back: string)
    ensures s == TrimRight(space, s) + back && AllSpace(space, back)
  {
    if s != "" && space(s[|s| - 1]) {
      var rest := TrimRightDrops(space, s[..|s| - 1]);
      back := rest + [s[|s| - 1]];
      assert s == s[..|s| - 1] + [s[|s| - 1]];
    } else {
      back := "";
    }
  }

  /** A text is some spaces, its trim, which neither starts nor ends with one, and some spaces. */
  lemma TrimDropsOuterSpace(space: char -> bool, s: string) returns (front: string, back: string)
    ensures s == front + Trim(space, s) + back && AllSpace(space, front) && AllSpace(space, back)
    ensures Trimmed(space, Trim(space, s))
  {
    front := TrimLeftDrops(space, s);
    back := TrimRightDrops(space, TrimLeft(space, s));
    TrimIsTrimmed(space, s);
  }

  /** Upper-casing replaces each small letter by the capital as far into the alphabet, and nothing else. */
  lemma UpperByAlphabet(s: string, i: nat)
    requires i < |s|
    ensures 'a' <= s[i] <= 'z' ==>
              'A' <= Upper(s)[i] <= 'Z' && Upper(s)[i] as int - 'A' as int == s[i] as int - 'a' as int
    ensures !('a' <= s[i] <= 'z') ==> Upper(s)[i] == s[i]
  {
  }

  lemma CodeIsNormal(space: char -> bool, s: string)
    requires CurrencyCode(s) && (forall c :: 'A' <= c <= 'Z' ==> !space(c))
    ensures Trim(space, s) == s && Upper(s) == s
  {
  }

  // ---- Go ----

  datatype Scalar = Null | Printed(text: string, supported: bool)

  datatype Usage = Usage(
    actor: map<string, string>, channel: string, channelAccountID: string,
    provider: string, providerEventID: string, conversationID: string, campaignID: string,
    rawQuantity: string, billableQuantity: string, providerInvoiceID: string,
    originalAmountMinor: string, originalCurrency: string, fxRule: string, tariffVersion: string,
    attributes: map<string, Scalar>)

  const NO_USAGE: Usage := Usage(map[], "", "", "", "", "", "", "", "", "", "", "", "", "", map[])
  const CHANNELS: set<string> := {"whatsapp", "instagram", "facebook", "tiktok", "telephony", "webchat"}
  const ACTOR_TYPES: set<string> := {"user", "system", "campaign"}

  /** validateMetadata. */
  ghost predicate ValidUsage(u: Usage) {
    && (u.channel == "" || u.channel in CHANNELS)
    && (|u.actor| > 0 ==>
          && |u.actor| == 2 && "id" in u.actor && 1 <= |u.actor["id"]| <= 128
          && "type" in u.actor && u.actor["type"] in ACTOR_TYPES)
    && |u.channelAccountID| <= 512 && |u.provider| <= 512 && |u.providerEventID| <= 512
    && |u.conversationID| <= 512 && |u.campaignID| <= 512 && |u.rawQuantity| <= 512
    && |u.billableQuantity| <= 512 && |u.providerInvoiceID| <= 512 && |u.originalCurrency| <= 512
    && |u.fxRule| <= 512 && |u.tariffVersion| <= 512
    && (u.originalAmountMinor != "" ==> ExactInteger(u.originalAmountMinor, true))
    && |u.attributes| <= 32
    && (forall k :: k in u.attributes ==> ValidAttribute(k, u.attributes[k]))
  }

  predicate ValidAttribute(k: string, v: Scalar) {
    |k| <= 64 && (v.Printed? ==> v.supported && |v.text| <= 512)
  }

  lemma ActorKeys(actor: map<string, string>)
    ensures |actor| == 2 && "id" in actor && "type" in actor <==> actor.Keys == {"id", "type"}
    ensures |actor| > 0 <==> actor != map[]
  {
    assert "id" != "type" by { assert |"id"| != |"type"|; }
    assert |actor.Keys| == |actor|;
    if |actor| == 2 && "id" in actor && "type" in actor {
      var rest := actor.Keys - {"id", "type"};
      assert |rest| == 0;
    }
    if |actor| == 0 { assert actor == map[]; }
  }

  /** validateMetadata, with every bound it puts on a field. */
  method ValidateMetadata(u: Usage) returns (ok: bool)
    ensures ok <==> ValidUsage(u)
    ensures ok <==>
      && u.channel in {"", "whatsapp", "instagram", "facebook", "tiktok", "telephony", "webchat"}
      && (u.actor == map[] || (u.actor.Keys == {"id", "type"} && 1 <= |u.actor["id"]| <= 128
                               && u.actor["type"] in {"user", "system", "campaign"}))
      && |u.channelAccountID| <= 512 && |u.provider| <= 512 && |u.providerEventID| <= 512
      && |u.conversationID| <= 512 && |u.campaignID| <= 512 && |u.rawQuantity| <= 512
      && |u.billableQuantity| <= 512 && |u.providerInvoiceID| <= 512 && |u.originalCurrency| <= 512
      && |u.fxRule| <= 512 && |u.tariffVersion| <= 512
      && (u.originalAmountMinor == "" || ExactInteger(u.originalAmountMinor, true))
      && |u.attributes| <= 32
      && (forall k :: k in u.attributes ==>
            && |k| <= 64
            && (u.attributes[k].Null? || (u.attributes[k].supported && |u.attributes[k].text| <= 512)))
  {
    ActorKeys(u.actor);
    if u.channel != "" && u.channel !in CHANNELS {
      return false;
    }
    if |u.actor| > 0 {
      if |u.actor| != 2 || "id" !in u.actor || !(1 <= |u.actor["id"]| <= 128) {
        return false;
      }
      if "type" !in u.actor || u.actor["type"] !in ACTOR_TYPES {
        return false;
      }
    }
    var texts := [u.channelAccountID, u.provider, u.providerEventID, u.conversationID, u.campaignID, u.rawQuantity,
      u.billableQuantity, u.providerInvoiceID, u.originalCurrency, u.fxRule, u.tariffVersion];
    for i := 0 to |texts|
      invariant forall j :: 0 <= j < i ==> |texts[j]| <= 512
    {
      if |texts[i]| > 512 {
        return false;
      }
    }
    assert |texts[0]| <= 512 && |texts[1]| <= 512 && |texts[2]| <= 512 && |texts[3]| <= 512 && |texts[4]| <= 512
        && |texts[5]| <= 512 && |texts[6]| <= 512 && |texts[7]| <= 512 && |texts[8]| <= 512 && |texts[9]| <= 512
        && |texts[10]| <= 512;
    if u.originalAmountMinor != "" {
      var exact := ValidateExactInteger(u.originalAmountMinor, true);
      if !exact {
        return false;
      }
    }
    ok := |u.attributes| <= 32 && forall k :: k in u.attributes ==> ValidAttribute(k, u.attributes[k]);
  }

  /** The caller's metadata object, passed by reference. */
  class UsageMetadata {
    var value: Usage

    constructor (value: Usage)
      ensures this.value == value
    {
      this.value := value;
    }
  }

  function SourceOf(source: UsageMetadata?): Usage
    reads source
  {
    if source == null then NO_USAGE else source.value
  }

  /** The facts of one pass-through charge, as the caller gives them. */
  datatype Charge = Charge(
    sourceEventID: string, timed: bool, provider: string, providerEventID: string,
    providerAmountMinor: string, providerInvoiceID: string, originalAmountMinor: string,
    originalCurrency: string, tariffVersion: string, fxRule: string)

  datatype ChargeRequest = ChargeRequest(sourceEventID: string, providerAmountMinor: string, metadata: Usage)

  function GoTrim(s: string): string {
    Trim(GoSpace, s)
  }

  /** Overlaying the explicit provider identity. */
  function WithProvider(u: Usage, provider: string, eventID: string): Usage {
    u.(provider := GoTrim(provider), providerEventID := GoTrim(eventID))
  }

  function WithConversation(u: Usage, conversationID: string, channel: string): Usage {
    u.(conversationID := GoTrim(conversationID), channel := channel)
  }

  function WithEvidence(u: Usage, c: Charge): Usage {
    WithProvider(u, c.provider, c.providerEventID).(
      providerInvoiceID := GoTrim(c.providerInvoiceID), originalAmountMinor := c.originalAmountMinor,
      originalCurrency := Upper(GoTrim(c.originalCurrency)), tariffVersion := GoTrim(c.tariffVersion),
      fxRule := GoTrim(c.fxRule))
  }

  /** What the charge itself must satisfy, whatever the metadata. */
  ghost predicate ValidCharge(c: Charge) {
    ValidFacts(c) && GoTrim(c.provider) != "" && GoTrim(c.providerEventID) != ""
  }

  ghost predicate ValidFacts(c: Charge) {
    && 1 <= |c.sourceEventID| <= 128 && c.timed
    && ExactInteger(c.providerAmountMinor, true) && ExactInteger(c.originalAmountMinor, true)
    && GoTrim(c.providerInvoiceID) != "" && GoTrim(c.tariffVersion) != ""
    && var currency := Upper(GoTrim(c.originalCurrency));
       && CurrencyCode(currency)
       && (currency != "SAR" ==> GoTrim(c.fxRule) != "")
       && (currency == "SAR" ==> c.originalAmountMinor == c.providerAmountMinor)
  }

  /** The request a charge and the caller's metadata build, if they build one. */
  ghost function BuildCharge(c: Charge, source: Usage): Option<ChargeRequest> {
    if ValidCharge(c) && ValidUsage(WithProvider(source, c.provider, c.providerEventID)) && ValidUsage(WithEvidence(source, c))
    then Some(ChargeRequest(c.sourceEventID, c.providerAmountMinor, WithEvidence(source, c)))
    else None
  }

  /** Every evidence field is the normalised argument of its own name, the identity is there, the
      charge settles in SAR at the original amount or names its FX rule, and every other field is
      the caller's. */
  predicate Attributed(c: Charge, source: Usage, u: Usage) {
    && u.provider == GoTrim(c.provider) != "" && u.providerEventID == GoTrim(c.providerEventID) != ""
    && u.providerInvoiceID == GoTrim(c.providerInvoiceID) != "" && u.tariffVersion == GoTrim(c.tariffVersion) != ""
    && u.originalAmountMinor == c.originalAmountMinor && u.fxRule == GoTrim(c.fxRule)
    && u.originalCurrency == Upper(GoTrim(c.originalCurrency)) && CurrencyCode(u.originalCurrency)
    && (if u.originalCurrency == "SAR" then u.originalAmountMinor == c.providerAmountMinor else u.fxRule != "")
    && u.(provider := source.provider, providerEventID := source.providerEventID,
          providerInvoiceID := source.providerInvoiceID, originalAmountMinor := source.originalAmountMinor,
          originalCurrency := source.originalCurrency, tariffVersion := source.tariffVersion,
          fxRule := source.fxRule) == source
  }

  lemma ChargeIsAttributed(c: Charge, source: Usage)
    requires BuildCharge(c, source).Some?
    ensures var r := BuildCharge(c, source).value;
            && r.sourceEventID == c.sourceEventID && r.providerAmountMinor == c.providerAmountMinor
            && Attributed(c, source, r.metadata)
  {
  }

  /** Which charges build a request: the caller's metadata must be valid under the explicit identity,
      and of the evidence only the lengths are left to check. */
  lemma ChargesExactly(c: Charge, source: Usage)
    ensures BuildCharge(c, source).Some? <==>
              && 1 <= |c.sourceEventID| <= 128 && c.timed
              && ExactInteger(c.providerAmountMinor, true) && ExactInteger(c.originalAmountMinor, true)
              && GoTrim(c.provider) != "" && GoTrim(c.providerEventID) != ""
              && ValidUsage(source.(provider := GoTrim(c.provider), providerEventID := GoTrim(c.providerEventID)))
              && 1 <= |GoTrim(c.providerInvoiceID)| <= 512 && 1 <= |GoTrim(c.tariffVersion)| <= 512
              && |GoTrim(c.fxRule)| <= 512
              && CurrencyCode(Upper(GoTrim(c.originalCurrency)))
              && (Upper(GoTrim(c.originalCurrency)) == "SAR" ==> c.originalAmountMinor == c.providerAmountMinor)
              && (Upper(GoTrim(c.originalCurrency)) != "SAR" ==> GoTrim(c.fxRule) != "")
  {
    hide GoTrim, Upper, ExactInteger, ValidAttribute;
  }

  /** The copy carries the explicit identity; the caller's object is not in the frame. */
  method ProviderMetadata(provider: string, eventID: string, source: UsageMetadata?) returns (result: UsageMetadata?)
    ensures result != null <==>
      GoTrim(provider) != "" && GoTrim(eventID) != ""
      && ValidUsage(SourceOf(source).(provider := GoTrim(provider), providerEventID := GoTrim(eventID)))
    ensures result != null ==>
      && fresh(result)
      && result.value == SourceOf(source).(provider := GoTrim(provider), providerEventID := GoTrim(eventID))
  {
    if GoTrim(provider) == "" || GoTrim(eventID) == "" {
      return null;
    }
    var metadata := NO_USAGE;
    if source != null {
      metadata := source.value;
    }
    metadata := metadata.(provider := GoTrim(provider));
    metadata := metadata.(providerEventID := GoTrim(eventID));
    var valid := ValidateMetadata(metadata);
    if !valid {
      return null;
    }
    result := new UsageMetadata(metadata);
  }

  /** Conversation identity overrides the caller's; both the original and the result are checked. */
  method ConversationMetadata(conversationID: string, channel: string, source: UsageMetadata?) returns (result: UsageMetadata?)
    ensures result != null <==>
      && GoTrim(conversationID) != "" && channel != "" && ValidUsage(SourceOf(source))
      && ValidUsage(SourceOf(source).(conversationID := GoTrim(conversationID), channel := channel))
    ensures result != null ==>
      && fresh(result)
      && result.value == SourceOf(source).(conversationID := GoTrim(conversationID), channel := channel)
  {
    if GoTrim(conversationID) == "" || channel == "" {
      return null;
    }
    if source != null {
      var valid := ValidateMetadata(source.value);
      if !valid {
        return null;
      }
    }
    var metadata := NO_USAGE;
    if source != null {
      metadata := source.value;
    }
    metadata := metadata.(conversationID := GoTrim(conversationID));
    metadata := metadata.(channel := channel);
    var valid := ValidateMetadata(metadata);
    if !valid {
      return null;
    }
    result := new UsageMetadata(metadata);
  }

  /** The checks of a pass-through charge before any metadata is looked at. */
  method CheckFacts(c: Charge) returns (ok: bool)
    ensures ok <==> ValidFacts(c)
  {
    if !(1 <= |c.sourceEventID| <= 128) || !c.timed {
      return false;
    }
    var exact := ValidateExactInteger(c.providerAmountMinor, true);
    if !exact {
      return false;
    }
    if GoTrim(c.providerInvoiceID) == "" || GoTrim(c.originalCurrency) == "" || GoTrim(c.tariffVersion) == "" {
      return false;
    }
    exact := ValidateExactInteger(c.originalAmountMinor, true);
    if !exact {
      return false;
    }
    var currency := Upper(GoTrim(c.originalCurrency));
    if !CurrencyCode(currency) {
      return false;
    }
    if currency != "SAR" && GoTrim(c.fxRule) == "" {
      return false;
    }
    return !(currency == "SAR" && c.originalAmountMinor != c.providerAmountMinor);
  }

  /** The pass-through charge: checks, provider overlay, then evidence written into the copy. */
  method ConsumeOtherProviderCharge(c: Charge, source: UsageMetadata?) returns (request: Option<ChargeRequest>)
    ensures request == BuildCharge(c, SourceOf(source))
    ensures source != null ==> source.value == old(source.value)
    ensures request.Some? ==>
      && request.value.sourceEventID == c.sourceEventID && request.value.providerAmountMinor == c.providerAmountMinor
      && Attributed(c, SourceOf(source), request.value.metadata)
  {
    if BuildCharge(c, SourceOf(source)).Some? {
      ChargeIsAttributed(c, SourceOf(source));
    }
    hide Attributed, GoTrim, Upper, ValidUsage, ValidFacts;
    var ok := CheckFacts(c);
    if !ok {
      return None;
    }
    var metadata := ProviderMetadata(c.provider, c.providerEventID, source);
    if metadata == null {
      return None;
    }
    metadata.value := metadata.value.(providerInvoiceID := GoTrim(c.providerInvoiceID));
    metadata.value := metadata.value.(originalAmountMinor := c.originalAmountMinor);
    metadata.value := metadata.value.(originalCurrency := Upper(GoTrim(c.originalCurrency)));
    metadata.value := metadata.value.(tariffVersion := GoTrim(c.tariffVersion));
    metadata.value := metadata.value.(fxRule := GoTrim(c.fxRule));
    ok := ValidateMetadata(metadata.value);
    if !ok {
      return None;
    }
    return Some(ChargeRequest(c.sourceEventID, c.providerAmountMinor, metadata.value));
  }

  /** The charge read back from a request that was built. */
  function ChargeOf(r: ChargeRequest): Charge {
    var u := r.metadata;
    Charge(r.sourceEventID, true, u.provider, u.providerEventID, r.providerAmountMinor, u.providerInvoiceID,
           u.originalAmountMinor, u.originalCurrency, u.tariffVersion, u.fxRule)
  }

  /** Every built request is a fixed point: its own normalised arguments and metadata build it again. */
  lemma RebuildingChargeIsIdentity(c: Charge, source: Usage)
    requires BuildCharge(c, source).Some?
    ensures var r := BuildCharge(c, source).value;
            BuildCharge(ChargeOf(r), r.metadata) == Some(r)
  {
    var r := BuildCharge(c, source).value;
    TrimIsTrimmed(GoSpace, c.provider);
    TrimIsTrimmed(GoSpace, c.providerEventID);
    TrimIsTrimmed(GoSpace, c.providerInvoiceID);
    TrimIsTrimmed(GoSpace, c.tariffVersion);
    TrimIsTrimmed(GoSpace, c.fxRule);
    CodeIsNormal(GoSpace, r.metadata.originalCurrency);
    assert WithEvidence(r.metadata, ChargeOf(r)) == r.metadata;
    assert WithProvider(r.metadata, r.metadata.provider, r.metadata.providerEventID) == r.metadata;
  }

  /** Conversation metadata is a fixed point of its own merge, and keeps every other field. */
  lemma RebuildingConversationIsIdentity(u: Usage, conversationID: string, channel: string)
    ensures var r := WithConversation(u, conversationID, channel);
            && WithConversation(r, r.conversationID, r.channel) == r
            && r.(conversationID := u.conversationID, channel := u.channel) == u
  {
    TrimIsTrimmed(GoSpace, conversationID);
  }

  // ---- Python ----

  /** The string-valued part of a metadata dict. */
  type Dict = map<string, string>

  const TEXT_FIELDS: set<string> := {
    "channel_account_id", "provider", "provider_event_id", "conversation_id", "campaign_id", "raw_quantity",
    "billable_quantity", "provider_invoice_id", "original_currency", "fx_rule", "tariff_version"
  }

  predicate ValidText(k: string, v: string) {
    if k in TEXT_FIELDS then 1 <= |v| <= 512
    else if k == "channel" then v in CHANNELS
    else k == "original_amount_minor"
  }

  ghost predicate ValidField(k: string, v: string) {
    ValidText(k, v) && (k == "original_amount_minor" ==> PythonExactInteger(v, true))
  }

  /** _validate_metadata on the string-valued part. */
  ghost predicate ValidDict(m: Dict) {
    forall k :: k in m ==> ValidField(k, m[k])
  }

  /** _validate_metadata, with every bound it puts on an entry. */
  method ValidateMetadataPython(m: Dict) returns (ok: bool)
    ensures ok <==> ValidDict(m)
    ensures ok ==> forall k :: k in m ==>
      || (k == "channel" && m[k] in {"whatsapp", "instagram", "facebook", "tiktok", "telephony", "webchat"})
      || (k == "original_amount_minor" && PythonExactInteger(m[k], true))
      || (k in TEXT_FIELDS && 1 <= |m[k]| <= 512)
    ensures !ok ==> exists k ::
      && k in m
      && !(k == "channel" && m[k] in {"whatsapp", "instagram", "facebook", "tiktok", "telephony", "webchat"})
      && !(k == "original_amount_minor" && PythonExactInteger(m[k], true))
      && !(k in TEXT_FIELDS && 1 <= |m[k]| <= 512)
  {
    if !(forall k :: k in m ==> ValidText(k, m[k])) {
      return false;
    }
    ok := true;
    if "original_amount_minor" in m {
      ok := ValidateExactIntegerPython(m["original_amount_minor"], true);
    }
  }

  function Strip(s: string): string {
    Trim(PythonSpace, s)
  }

  /** _required_metadata_string. */
  function RequiredText(s: string): Option<string> {
    if 1 <= |Strip(s)| <= 512 then Some(Strip(s)) else None
  }

  datatype PythonCharge = PythonCharge(
    sourceEventID: string, timed: bool, provider: string, providerEventID: string,
    providerAmountMinor: string, providerInvoiceID: string, originalAmountMinor: string,
    originalCurrency: string, tariffVersion: string, fxRule: Option<string>)

  datatype PythonRequest = PythonRequest(sourceEventID: string, providerAmountMinor: string, metadata: Dict)

  ghost predicate ValidPythonCharge(c: PythonCharge) {
    && 1 <= |c.sourceEventID| <= 128 && c.timed
    && PythonExactInteger(c.providerAmountMinor, true) && PythonExactInteger(c.originalAmountMinor, true)
    && RequiredText(c.originalCurrency).Some? && RequiredText(c.providerInvoiceID).Some? && RequiredText(c.tariffVersion).Some?
    && Strip(c.provider) != "" && Strip(c.providerEventID) != ""
    && (c.fxRule.Some? ==> RequiredText(c.fxRule.value).Some?)
    && var currency := Upper(Strip(c.originalCurrency));
       && CurrencyCode(currency)
       && (currency == "SAR" ==> c.originalAmountMinor == c.providerAmountMinor)
       && (currency != "SAR" ==> c.fxRule.Some?)
  }

  /** The merged dict; without an explicit rule the caller's fx_rule stays. */
  function PythonEvidence(m: Dict, c: PythonCharge): Dict {
    var merged := m["provider" := Strip(c.provider)]["provider_event_id" := Strip(c.providerEventID)]
      ["provider_invoice_id" := Strip(c.providerInvoiceID)]["original_amount_minor" := c.originalAmountMinor]
      ["original_currency" := Upper(Strip(c.originalCurrency))]["tariff_version" := Strip(c.tariffVersion)];
    if c.fxRule.Some? then merged["fx_rule" := Strip(c.fxRule.value)] else merged
  }

  ghost function BuildPythonCharge(c: PythonCharge, metadata: Dict): Option<PythonRequest> {
    if ValidPythonCharge(c) && ValidDict(metadata)
    then Some(PythonRequest(c.sourceEventID, c.providerAmountMinor, PythonEvidence(metadata, c))) else None
  }

  /** Which charges build a request in Python, and what is in it: each evidence field is the normalised
      argument of its own name. */
  lemma PythonChargesExactly(c: PythonCharge, m: Dict)
    ensures BuildPythonCharge(c, m).Some? <==>
              && 1 <= |c.sourceEventID| <= 128 && c.timed && ValidDict(m)
              && PythonExactInteger(c.providerAmountMinor, true) && PythonExactInteger(c.originalAmountMinor, true)
              && Strip(c.provider) != "" && Strip(c.providerEventID) != ""
              && 1 <= |Strip(c.providerInvoiceID)| <= 512 && 1 <= |Strip(c.tariffVersion)| <= 512
              && CurrencyCode(Upper(Strip(c.originalCurrency)))
              && (c.fxRule.Some? ==> 1 <= |Strip(c.fxRule.value)| <= 512)
              && (Upper(Strip(c.originalCurrency)) == "SAR" ==> c.originalAmountMinor == c.providerAmountMinor)
              && (Upper(Strip(c.originalCurrency)) != "SAR" ==> c.fxRule.Some?)
    ensures BuildPythonCharge(c, m).Some? ==>
              var r := BuildPythonCharge(c, m).value;
              var e := r.metadata;
              && r.sourceEventID == c.sourceEventID && r.providerAmountMinor == c.providerAmountMinor
              && "provider" in e && e["provider"] == Strip(c.provider)
              && "provider_event_id" in e && e["provider_event_id"] == Strip(c.providerEventID)
              && "provider_invoice_id" in e && e["provider_invoice_id"] == Strip(c.providerInvoiceID)
              && "original_amount_minor" in e && e["original_amount_minor"] == c.originalAmountMinor
              && "original_currency" in e && e["original_currency"] == Upper(Strip(c.originalCurrency))
              && "tariff_version" in e && e["tariff_version"] == Strip(c.tariffVersion)
              && (c.fxRule.Some? ==> "fx_rule" in e && e["fx_rule"] == Strip(c.fxRule.value))
  {
    hide Strip, Trim, Upper, PythonExactInteger, ValidDict;
  }

  /** other_provider_charge, in its own order of checks. */
  method OtherProviderCharge(c: PythonCharge, metadata: Option<Dict>) returns (request: Option<PythonRequest>)
    ensures request == BuildPythonCharge(c, if metadata.Some? then metadata.value else map[])
  {
    if !(1 <= |c.sourceEventID| <= 128) || !c.timed {
      return None;
    }
    var amount := ValidateExactIntegerPython(c.providerAmountMinor, true);
    var originalAmount := ValidateExactIntegerPython(c.originalAmountMinor, true);
    if !amount || !originalAmount {
      return None;
    }
    var original := RequiredText(c.originalCurrency);
    if original.None? {
      return None;
    }
    var currency := Upper(original.value);
    if !CurrencyCode(currency) {
      return None;
    }
    if currency == "SAR" && c.originalAmountMinor != c.providerAmountMinor {
      return None;
    }
    if currency != "SAR" && (c.fxRule.None? || Strip(c.fxRule.value) == "") {
      return None;
    }
    var providerMetadata := ProviderMetadataPython(c.provider, c.providerEventID, metadata);
    if providerMetadata.None? {
      return None;
    }
    var evidence := providerMetadata.value;
    var invoice, tariff := RequiredText(c.providerInvoiceID), RequiredText(c.tariffVersion);
    if invoice.None? || tariff.None? {
      return None;
    }
    evidence := evidence["provider_invoice_id" := invoice.value]["original_amount_minor" := c.originalAmountMinor];
    evidence := evidence["original_currency" := currency]["tariff_version" := tariff.value];
    if c.fxRule.Some? {
      var rule := RequiredText(c.fxRule.value);
      if rule.None? {
        return None;
      }
      evidence := evidence["fx_rule" := rule.value];
    }
    return Some(PythonRequest(c.sourceEventID, c.providerAmountMinor, evidence));
  }

  /** The charge with every text in the form the request carries it. */
  function Normalized(c: PythonCharge): PythonCharge {
    c.(provider := Strip(c.provider), providerEventID := Strip(c.providerEventID),
       providerInvoiceID := Strip(c.providerInvoiceID), originalCurrency := Upper(Strip(c.originalCurrency)),
       tariffVersion := Strip(c.tariffVersion),
       fxRule := if c.fxRule.None? then None else Some(Strip(c.fxRule.value)))
  }

  const EVIDENCE_FIELDS: set<string> := {
    "provider", "provider_event_id", "provider_invoice_id", "original_amount_minor",
    "original_currency", "tariff_version", "fx_rule"
  }

  lemma NormalizedTexts(c: PythonCharge)
    requires ValidPythonCharge(c)
    ensures var n := Normalized(c);
            && Strip(n.provider) == n.provider && Strip(n.providerEventID) == n.providerEventID
            && Strip(n.providerInvoiceID) == n.providerInvoiceID && Strip(n.tariffVersion) == n.tariffVersion
            && Upper(Strip(n.originalCurrency)) == n.originalCurrency && Strip(n.originalCurrency) == n.originalCurrency
            && (n.fxRule.Some? ==> Strip(n.fxRule.value) == n.fxRule.value)
  {
    TrimIsTrimmed(PythonSpace, c.provider);
    TrimIsTrimmed(PythonSpace, c.providerEventID);
    TrimIsTrimmed(PythonSpace, c.providerInvoiceID);
    TrimIsTrimmed(PythonSpace, c.tariffVersion);
    if c.fxRule.Some? { TrimIsTrimmed(PythonSpace, c.fxRule.value); }
    CodeIsNormal(PythonSpace, Upper(Strip(c.originalCurrency)));
  }

  lemma NormalizedChargeIsValid(c: PythonCharge)
    requires ValidPythonCharge(c)
    ensures ValidPythonCharge(Normalized(c))
  {
    NormalizedTexts(c);
  }

  lemma NormalizedEvidence(m: Dict, c: PythonCharge)
    requires ValidPythonCharge(c)
    ensures PythonEvidence(PythonEvidence(m, c), Normalized(c)) == PythonEvidence(m, c)
  {
    NormalizedTexts(c);
    hide Trim, Upper, ValidPythonCharge, CurrencyCode;
  }

  /** The merged dict is valid metadata exactly when its provider identity is short enough. */
  lemma MergedDictValidity(m: Dict, c: PythonCharge)
    requires ValidPythonCharge(c) && ValidDict(m)
    ensures ValidDict(PythonEvidence(m, c)) <==> |Strip(c.provider)| <= 512 && |Strip(c.providerEventID)| <= 512
  {
    hide Trim, Upper, PythonExactInteger;
    var e := PythonEvidence(m, c);
    assert e["provider"] == Strip(c.provider) && e["provider_event_id"] == Strip(c.providerEventID);
    if ValidDict(e) {
      assert ValidField("provider", e["provider"]) && ValidField("provider_event_id", e["provider_event_id"]);
    }
    forall k | k in e && k != "provider" && k != "provider_event_id" ensures ValidField(k, e[k]) {
      if k !in EVIDENCE_FIELDS { assert k in m; }
    }
  }

  /** Python does not check the merged dict again, so a built request builds itself again exactly
      when its provider identity is within the length a metadata dict may carry. */
  lemma RebuildingPythonCharge(c: PythonCharge, m: Dict)
    requires BuildPythonCharge(c, m).Some?
    ensures var r := BuildPythonCharge(c, m).value;
            (BuildPythonCharge(Normalized(c), r.metadata) == Some(r))
            <==> (|Strip(c.provider)| <= 512 && |Strip(c.providerEventID)| <= 512)
  {
    NormalizedChargeIsValid(c);
    NormalizedEvidence(m, c);
    MergedDictValidity(m, c);
    hide ValidPythonCharge, PythonEvidence, ValidDict, Trim;
  }

  lemma NoSpaceNoStrip(s: string)
    requires s != "" && !PythonSpace(s[0]) && !PythonSpace(s[|s| - 1])
    ensures Strip(s) == s
  {
  }

  lemma OneIsExact()
    ensures PythonExactInteger("1", true)
  {
    assert "1" == Zeros(0) + PrintNat(1);
  }

  /** The failing side happens: a provider name of 513 characters builds a request whose metadata no
      builder accepts. */
  lemma LongProviderIsNotRebuilt()
    ensures var c := PythonCharge("s", true, seq(513, _ => 'x'), "e", "1", "i", "1", "SAR", "t", None);
            var r := BuildPythonCharge(c, map[]);
            r.Some? && BuildPythonCharge(Normalized(c), r.value.metadata) == None
  {
    var c := PythonCharge("s", true, seq(513, _ => 'x'), "e", "1", "i", "1", "SAR", "t", None);
    OneIsExact();
    NoSpaceNoStrip(c.provider);
    NoSpaceNoStrip("e");
    NoSpaceNoStrip("i");
    NoSpaceNoStrip("SAR");
    NoSpaceNoStrip("t");
    assert Upper("SAR") == "SAR";
    var merged := PythonEvidence(map[], c);
    assert merged["provider"] == c.provider && !ValidField("provider", c.provider);
  }

  /** Python keeps every caller field the charge does not name, a leftover rule included. */
  lemma PythonKeepsOtherFields(c: PythonCharge, m: Dict, k: string)
    requires BuildPythonCharge(c, m).Some?
    requires k !in {"provider", "provider_event_id", "provider_invoice_id", "original_amount_minor",
                    "original_currency", "tariff_version"}
    requires k == "fx_rule" ==> c.fxRule.None?
    ensures var e := BuildPythonCharge(c, m).value.metadata;
            (k in e <==> k in m) && (k in m ==> e[k] == m[k])
  {
    hide Trim, Upper, ValidPythonCharge, ValidDict;
  }

  /** Go clears a leftover rule: a charge without one is in SAR and carries none. */
  lemma GoClearsLeftoverRule(c: Charge, source: Usage)
    requires BuildCharge(c, source).Some? && GoTrim(c.fxRule) == ""
    ensures var u := BuildCharge(c, source).value.metadata; u.fxRule == "" && u.originalCurrency == "SAR"
  {
    hide Trim, Upper, ValidUsage;
  }

  // ---- Counted usage in Python ----

  datatype CountRequest = CountRequest(sourceEventID: string, quantity: string, metadata: Option<Dict>)

  /** _count_usage: the request exists only if every local fact passed. */
  method CountUsage(sourceEventID: string, timed: bool, quantity: string, metadata: Option<Dict>, wholeCount: bool)
    returns (request: Option<CountRequest>)
    ensures request.Some? <==>
      && 1 <= |sourceEventID| <= 128 && timed
      && (if wholeCount then PythonWholeCount(quantity) else PythonQuantity(quantity))
      && (metadata.Some? ==> ValidDict(metadata.value))
    ensures request.Some? ==> request.value == CountRequest(sourceEventID, quantity, metadata)
  {
    if !(1 <= |sourceEventID| <= 128) || !timed {
      return None;
    }
    var inRange: bool;
    if wholeCount {
      inRange := ValidateWholeCountPython(quantity);
    } else {
      inRange := ValidateQuantityPython(quantity);
    }
    if !inRange {
      return None;
    }
    if metadata.Some? {
      var valid := ValidateMetadataPython(metadata.value);
      if !valid {
        return None;
      }
    }
    return Some(CountRequest(sourceEventID, quantity, metadata));
  }

  /** _provider_metadata: the merged dict. */
  method ProviderMetadataPython(provider: string, eventID: string, metadata: Option<Dict>) returns (result: Option<Dict>)
    ensures result.Some? <==>
      (metadata.Some? ==> ValidDict(metadata.value)) && Strip(provider) != "" && Strip(eventID) != ""
    ensures result.Some? ==>
      result.value == (if metadata.Some? then metadata.value else map[])
                        ["provider" := Strip(provider)]["provider_event_id" := Strip(eventID)]
  {
    var merged: Dict := map[];
    if metadata.Some? {
      var valid := ValidateMetadataPython(metadata.value);
      if !valid {
        return None;
      }
      merged := metadata.value;
    }
    if Strip(provider) == "" || Strip(eventID) == "" {
      return None;
    }
    merged := merged["provider" := Strip(provider)];
    merged := merged["provider_event_id" := Strip(eventID)];
    return Some(merged);
  }

  /** conversation_24h: explicit identity wins, quantity is one, and no merged dict fails the
      second check. */
  method Conversation24H(sourceEventID: string, timed: bool, conversationID: string, channel: string, metadata: Option<Dict>)
    returns (request: Option<CountRequest>)
    ensures request.Some? <==>
      && 1 <= |sourceEventID| <= 128 && timed && channel in CHANNELS && RequiredText(conversationID).Some?
      && (metadata.Some? ==> ValidDict(metadata.value))
    ensures request.Some? ==>
      request.value == CountRequest(sourceEventID, "1", Some((if metadata.Some? then metadata.value else map[])
                        ["conversation_id" := Strip(conversationID)]["channel" := channel]))
  {
    var resolved: Dict := map[];
    if metadata.Some? {
      var valid := ValidateMetadataPython(metadata.value);
      if !valid {
        return None;
      }
      resolved := metadata.value;
    }
    if channel !in CHANNELS {
      return None;
    }
    var id := RequiredText(conversationID);
    if id.None? {
      return None;
    }
    resolved := resolved["conversation_id" := id.value];
    resolved := resolved["channel" := channel];
    assert "1"[..0] == "" && Value("1") == 1;
    request := CountUsage(sourceEventID, timed, "1", Some(resolved), true);
  }
}
