/**
 Threshold approval of a release and the authorisation that re-checks it
 (contracts-ton/scripts/verify-release-approval.ts and contracts-ton/scripts/authorize-deployment.ts).
 Parsing of JSON text, SHA-256, Ed25519 and Base64 are functions the model knows nothing about.
 */
module ReleaseApproval {
  import opened Outcomes
  import opened StringOrder

  datatype Json =
    | JNull
    | JBool(flag: bool)
    | JNumber(number: real)
    | JString(text: string)
    | JArray(items: seq<Json>)
    | JObject(fields: map<string, Json>)

  type Bytes = seq<nat>
  type Key = nat

  predicate IsSha256(s: string) {
    |s| == 64 && forall i | 0 <= i < |s| :: '0' <= s[i] <= '9' || 'a' <= s[i] <= 'f'
  }

  /** What the two scripts call and do not define. */
  datatype Platform = Platform(
    parseJson: Bytes -> Option<Json>,
    sha256: Bytes -> string,
    readEd25519Key: string -> Option<Key>,
    decodeBase64: string -> Bytes,
    encodeBase64: Bytes -> string,
    verifySignature: (string, Key, Bytes) -> bool)

  // ---------- JSON access ----------

  /** `value.key`, where an absent key is `undefined` and passes none of the checks. */
  function Member(fields: map<string, Json>, key: string): Option<Json> {
    if key in fields then Some(fields[key]) else None
  }

  predicate IsNumber(v: Option<Json>, n: int) {
    v == Some(JNumber(n as real))
  }

  predicate IsText(v: Option<Json>, s: string) {
    v == Some(JString(s))
  }

  /** `Number.isInteger` */
  predicate IsInteger(v: Option<Json>) {
    v.Some? && v.value.JNumber? && v.value.number.Floor as real == v.value.number
  }

  const MAX_SAFE_INTEGER := 0x1F_FFFF_FFFF_FFFF

  /** `Number.isSafeInteger` */
  predicate IsSafeInteger(v: Option<Json>) {
    IsInteger(v) && -MAX_SAFE_INTEGER <= v.value.number.Floor <= MAX_SAFE_INTEGER
  }

  predicate IsString(v: Option<Json>) {
    v.Some? && v.value.JString?
  }

  predicate IsArray(v: Option<Json>) {
    v.Some? && v.value.JArray?
  }

  predicate IsObject(v: Option<Json>) {
    v.Some? && v.value.JObject?
  }

  /** `/^[a-zA-Z0-9._:-]{3,128}$/` */
  predicate IsIdentifier(s: string) {
    3 <= |s| <= 128 && forall i | 0 <= i < |s| ::
      'a' <= s[i] <= 'z' || 'A' <= s[i] <= 'Z' || '0' <= s[i] <= '9' || s[i] in {'.', '_', ':', '-'}
  }

  predicate IsIdentifierJson(v: Option<Json>) {
    IsString(v) && IsIdentifier(v.value.text)
  }

  predicate IsSha256Json(v: Option<Json>) {
    IsString(v) && IsSha256(v.value.text)
  }

  /** One to 256 characters, none of them a control character. */
  predicate IsRevisionJson(v: Option<Json>) {
    IsString(v) && 1 <= |v.value.text| <= 256
    && forall i | 0 <= i < |v.value.text| :: ' ' <= v.value.text[i] && v.value.text[i] != '\U{7F}'
  }

  // ---------- Stage one: the inputs ----------

  datatype Candidate = Candidate(sourceRevision: string, codeHash: string, required: int)

  datatype Policy = Policy(policyId: string, threshold: int, signers: seq<Json>)

  datatype Bundle = Bundle(policyId: string, candidateSha256: string, signatures: seq<Json>)

  function ParseCandidate(v: Json): Result<Candidate> {
    if !v.JObject? || !IsObject(Member(v.fields, "approvals")) then Err("must be a JSON object")
    else
      var f, a := v.fields, v.fields["approvals"].fields;
      if !(a.Keys <= {"required", "signatures"}) then Err("unexpected field")
      else if !(&& IsNumber(Member(f, "schemaVersion"), 1)
                && IsText(Member(f, "status"), "unsigned_release_candidate")
                && IsText(Member(f, "contract"), "TonNativeEscrow")
                && IsRevisionJson(Member(f, "sourceRevision"))
                && IsString(Member(f, "codeHash"))
                && IsInteger(Member(a, "required"))
                && a["required"].number.Floor >= 2
                && Member(a, "signatures") == Some(JArray([])))
      then Err("incomplete or not pristine")
      else if !IsSha256(f["codeHash"].text) then Err("code hash")
      else Ok(Candidate(f["sourceRevision"].text, f["codeHash"].text, a["required"].number.Floor))
  }

  function ParsePolicy(v: Json): Result<Policy> {
    if !v.JObject? then Err("must be a JSON object")
    else
      var f := v.fields;
      if !(f.Keys <= {"schemaVersion", "policyId", "threshold", "signers"}) then Err("unexpected field")
      else if !(&& IsNumber(Member(f, "schemaVersion"), 1)
                && IsIdentifierJson(Member(f, "policyId"))
                && IsInteger(Member(f, "threshold"))
                && f["threshold"].number.Floor >= 2
                && IsArray(Member(f, "signers"))
                && |f["signers"].items| <= 256)
      then Err("below two-person control")
      else Ok(Policy(f["policyId"].text, f["threshold"].number.Floor, f["signers"].items))
  }

  function ParseSignatureBundle(v: Json): Result<Bundle> {
    if !v.JObject? then Err("must be a JSON object")
    else
      var f := v.fields;
      if !(f.Keys <= {"schemaVersion", "policyId", "candidateSha256", "signatures"}) then Err("unexpected field")
      else if !(&& IsNumber(Member(f, "schemaVersion"), 1)
                && IsString(Member(f, "policyId"))
                && IsString(Member(f, "candidateSha256"))
                && IsArray(Member(f, "signatures"))
                && |f["signatures"].items| <= 256)
      then Err("malformed")
      else if !IsSha256(f["candidateSha256"].text) then Err("digest")
      else Ok(Bundle(f["policyId"].text, f["candidateSha256"].text, f["signatures"].items))
  }

  datatype Signer = Signer(id: string, publicKeyPem: string, enabled: bool)

  /** The checks on one entry of the policy. */
  function ParseSigner(v: Json): Option<Signer> {
    if && v.JObject?
       && v.fields.Keys <= {"id", "algorithm", "publicKeyPem", "enabled"}
       && IsIdentifierJson(Member(v.fields, "id"))
       && IsText(Member(v.fields, "algorithm"), "ed25519")
       && IsString(Member(v.fields, "publicKeyPem"))
       && Member(v.fields, "enabled").Some? && v.fields["enabled"].JBool?
    then Some(Signer(v.fields["id"].text, v.fields["publicKeyPem"].text, v.fields["enabled"].flag))
    else None
  }

  datatype Entry = Entry(signerId: string, algorithm: string, signatureBase64: string)

  /** The shape checks on one entry of the bundle. */
  function ParseEntry(v: Json): Option<Entry> {
    if && v.JObject?
       && v.fields.Keys <= {"signerId", "algorithm", "signatureBase64"}
       && IsIdentifierJson(Member(v.fields, "signerId"))
       && IsString(Member(v.fields, "algorithm"))
       && IsString(Member(v.fields, "signatureBase64"))
    then Some(Entry(v.fields["signerId"].text, v.fields["algorithm"].text, v.fields["signatureBase64"].text))
    else None
  }

  /** `/^[A-Za-z0-9+\/]{86}==$/` */
  predicate IsSignatureText(s: string) {
    |s| == 88 && s[86..] == "==" && forall i | 0 <= i < 86 ::
      'a' <= s[i] <= 'z' || 'A' <= s[i] <= 'Z' || '0' <= s[i] <= '9' || s[i] in {'+', '/'}
  }

  function ReleaseApprovalPayload(policyId: string, candidateSha256: string): string {
    "telegram-garant-ton-release-v1\n" + policyId + "\n" + candidateSha256 + "\n"
  }

  predicate SignatureVerifies(e: Entry, key: Key, payload: string, p: Platform) {
    && e.algorithm == "ed25519"
    && IsSignatureText(e.signatureBase64)
    && |p.decodeBase64(e.signatureBase64)| == 64
    && p.encodeBase64(p.decodeBase64(e.signatureBase64)) == e.signatureBase64
    && p.verifySignature(payload, key, p.decodeBase64(e.signatureBase64))
  }

  // ---------- Stage one: what approval means ----------

  /** How entries are read and signatures verified, for one payload. */
  datatype Rules = Rules(
    parseSigner: Json -> Option<Signer>,
    readKey: string -> Option<Key>,
    parseEntry: Json -> Option<Entry>,
    verifies: (Entry, Key) -> bool)

  function RulesOf(payload: string, p: Platform): Rules {
    Rules(ParseSigner, p.readEd25519Key, ParseEntry, (e: Entry, k: Key) => SignatureVerifies(e, k, payload, p))
  }

  datatype Configured = Configured(id: string, enabled: bool, key: Key)

  /** A well-formed signer with a readable key. */
  function ReadSigner(v: Json, r: Rules): Option<Configured> {
    match r.parseSigner(v)
    case None => None
    case Some(s) => (match r.readKey(s.publicKeyPem) case None => None case Some(k) => Some(Configured(s.id, s.enabled, k)))
  }

  ghost predicate UniqueSigners(signers: seq<Json>, r: Rules) {
    && (forall i | 0 <= i < |signers| :: ReadSigner(signers[i], r).Some?)
    && forall i, j | 0 <= i < j < |signers| :: ReadSigner(signers[i], r).value.id != ReadSigner(signers[j], r).value.id
  }

  ghost predicate EnabledSigner(id: string, key: Key, signers: seq<Json>, r: Rules) {
    exists i | 0 <= i < |signers| :: ReadSigner(signers[i], r) == Some(Configured(id, true, key))
  }

  ghost function EnabledIds(signers: seq<Json>, r: Rules): set<string> {
    set i | 0 <= i < |signers| && ReadSigner(signers[i], r).Some? && ReadSigner(signers[i], r).value.enabled
      :: ReadSigner(signers[i], r).value.id
  }

  /** A valid signature by an enabled signer of the policy. */
  ghost predicate EntryOk(v: Json, signers: seq<Json>, r: Rules) {
    r.parseEntry(v).Some? && exists key :: EnabledSigner(r.parseEntry(v).value.signerId, key, signers, r) && r.verifies(r.parseEntry(v).value, key)
  }

  /** Every entry is such a signature, and no signer signs twice. */
  ghost predicate EntriesOk(signatures: seq<Json>, signers: seq<Json>, r: Rules) {
    && (forall i | 0 <= i < |signatures| :: EntryOk(signatures[i], signers, r))
    && forall i, j | 0 <= i < j < |signatures| :: r.parseEntry(signatures[i]).value.signerId != r.parseEntry(signatures[j]).value.signerId
  }

  ghost predicate Approved(candidate: Candidate, policy: Policy, bundle: Bundle, digest: string, r: Rules) {
    && candidate.required == policy.threshold
    && UniqueSigners(policy.signers, r)
    && policy.threshold <= |EnabledIds(policy.signers, r)|
    && bundle.policyId == policy.policyId
    && bundle.candidateSha256 == digest
    && EntriesOk(bundle.signatures, policy.signers, r)
    && policy.threshold <= |bundle.signatures|
  }

  /** The signers of a bundle, in its order. */
  function EntryIds(signatures: seq<Json>, r: Rules): (ids: seq<string>)
    requires forall i | 0 <= i < |signatures| :: r.parseEntry(signatures[i]).Some?
    ensures |ids| == |signatures| && forall i | 0 <= i < |ids| :: ids[i] == r.parseEntry(signatures[i]).value.signerId
  {
    seq(|signatures|, i requires 0 <= i < |signatures| => r.parseEntry(signatures[i]).value.signerId)
  }

  datatype Evidence = Evidence(
    policyId: string,
    candidateSha256: string,
    sourceRevision: string,
    codeHash: string,
    threshold: int,
    verifiedSigners: seq<string>)

  // ---------- Stage one: the loops ----------

  /** The signer map holds exactly the entries of the policy. */
  ghost predicate MapOf(m: map<string, Configured>, signers: seq<Json>, r: Rules) {
    && UniqueSigners(signers, r)
    && (forall id | id in m :: exists i | 0 <= i < |signers| :: ReadSigner(signers[i], r) == Some(m[id]) && m[id].id == id)
    && forall i | 0 <= i < |signers| ::
         ReadSigner(signers[i], r).value.id in m && m[ReadSigner(signers[i], r).value.id] == ReadSigner(signers[i], r).value
  }

  lemma MapExtends(m: map<string, Configured>, signers: seq<Json>, v: Json, r: Rules)
    requires MapOf(m, signers, r) && ReadSigner(v, r).Some? && ReadSigner(v, r).value.id !in m
    ensures MapOf(m[ReadSigner(v, r).value.id := ReadSigner(v, r).value], signers + [v], r)
  {
    var c := ReadSigner(v, r).value;
    var m' := m[c.id := c];
    forall id | id in m'
      ensures exists i | 0 <= i < |signers + [v]| :: ReadSigner((signers + [v])[i], r) == Some(m'[id]) && m'[id].id == id
    {
      if id == c.id {
        assert (signers + [v])[|signers|] == v;
      } else {
        var i :| 0 <= i < |signers| && ReadSigner(signers[i], r) == Some(m[id]) && m[id].id == id;
        assert (signers + [v])[i] == signers[i];
      }
    }
  }

  lemma MapDuplicate(m: map<string, Configured>, signers: seq<Json>, i: nat, r: Rules)
    requires i < |signers| && MapOf(m, signers[..i], r)
    requires ReadSigner(signers[i], r).None? || ReadSigner(signers[i], r).value.id in m
    ensures !UniqueSigners(signers, r)
  {
    if ReadSigner(signers[i], r).Some? {
      var id := ReadSigner(signers[i], r).value.id;
      var j :| 0 <= j < i && ReadSigner(signers[..i][j], r) == Some(m[id]) && m[id].id == id;
      assert ReadSigner(signers[j], r).value.id == ReadSigner(signers[i], r).value.id;
    }
  }

  /** The first loop: the policy's signers into a map. */
  method ReadSigners(signers: seq<Json>, r: Rules) returns (m: Result<map<string, Configured>>)
    ensures m.Ok? <==> UniqueSigners(signers, r)
    ensures m.Ok? ==> MapOf(m.value, signers, r)
  {
    var signerMap: map<string, Configured> := map[];
    for i := 0 to |signers|
      invariant MapOf(signerMap, signers[..i], r)
    {
      assert signers[..i + 1] == signers[..i] + [signers[i]];
      var signer := r.parseSigner(signers[i]);
      if signer.None? {
        MapDuplicate(signerMap, signers, i, r);
        return Err("invalid signer");
      }
      if signer.value.id in signerMap {
        MapDuplicate(signerMap, signers, i, r);
        return Err("duplicate signer");
      }
      var key := r.readKey(signer.value.publicKeyPem);
      if key.None? {
        MapDuplicate(signerMap, signers, i, r);
        return Err("invalid public key");
      }
      MapExtends(signerMap, signers[..i], signers[i], r);
      signerMap := signerMap[signer.value.id := Configured(signer.value.id, signer.value.enabled, key.value)];
    }
    assert signers[..|signers|] == signers;
    return Ok(signerMap);
  }

  /** Looking a signer up in the map is looking for it in the policy. */
  lemma MapDecides(m: map<string, Configured>, signers: seq<Json>, id: string, r: Rules)
    requires MapOf(m, signers, r)
    ensures forall key :: EnabledSigner(id, key, signers, r) <==> id in m && m[id] == Configured(id, true, key)
  {
    if id in m {
      var i :| 0 <= i < |signers| && ReadSigner(signers[i], r) == Some(m[id]) && m[id].id == id;
    }
  }

  lemma MapEnabled(m: map<string, Configured>, signers: seq<Json>, r: Rules)
    requires MapOf(m, signers, r)
    ensures EnabledIds(signers, r) == set id | id in m && m[id].enabled
  {
    forall id | id in m && m[id].enabled
      ensures id in EnabledIds(signers, r)
    {
      var i :| 0 <= i < |signers| && ReadSigner(signers[i], r) == Some(m[id]) && m[id].id == id;
    }
  }

  lemma EntriesSnoc(front: seq<Json>, v: Json, signers: seq<Json>, r: Rules)
    requires EntriesOk(front, signers, r)
    ensures EntriesOk(front + [v], signers, r) <==>
            EntryOk(v, signers, r)
            && forall j | 0 <= j < |front| :: r.parseEntry(front[j]).value.signerId != r.parseEntry(v).value.signerId
  {
    var all := front + [v];
    assert all[|front|] == v && forall j | 0 <= j < |front| :: all[j] == front[j];
  }

  lemma BadPrefix(signatures: seq<Json>, n: nat, signers: seq<Json>, r: Rules)
    requires n <= |signatures| && !EntriesOk(signatures[..n], signers, r)
    ensures !EntriesOk(signatures, signers, r)
  {
  }

  /** The body of the second loop: one entry of the bundle. */
  method VerifyEntry(v: Json, seen: set<string>, signerMap: map<string, Configured>, ghost signers: seq<Json>, r: Rules)
    returns (signerId: Result<string>)
    requires MapOf(signerMap, signers, r)
    ensures signerId.Ok? <==> EntryOk(v, signers, r) && r.parseEntry(v).value.signerId !in seen
    ensures signerId.Ok? ==> signerId.value == r.parseEntry(v).value.signerId
  {
    var entry := r.parseEntry(v);
    if entry.None? {
      return Err("malformed");
    }
    if entry.value.signerId in seen {
      return Err("duplicate signature");
    }
    MapDecides(signerMap, signers, entry.value.signerId, r);
    if entry.value.signerId !in signerMap || !signerMap[entry.value.signerId].enabled {
      return Err("unauthorized signer");
    }
    if !r.verifies(entry.value, signerMap[entry.value.signerId].key) {
      return Err("invalid signature");
    }
    return Ok(entry.value.signerId);
  }

  /** The second loop: every entry of the bundle, once per signer. */
  method VerifyEntries(signatures: seq<Json>, signerMap: map<string, Configured>, ghost signers: seq<Json>, r: Rules)
    returns (v: Result<seq<string>>)
    requires MapOf(signerMap, signers, r)
    ensures v.Ok? <==> EntriesOk(signatures, signers, r)
    ensures v.Ok? ==> v.value == EntryIds(signatures, r)
  {
    var verifiedSigners: seq<string> := [];
    var seen: set<string> := {};
    for i := 0 to |signatures|
      invariant EntriesOk(signatures[..i], signers, r)
      invariant verifiedSigners == EntryIds(signatures[..i], r)
      invariant forall id :: id in seen <==> id in verifiedSigners
    {
      EntriesSnoc(signatures[..i], signatures[i], signers, r);
      assert signatures[..i + 1] == signatures[..i] + [signatures[i]];
      var signerId := VerifyEntry(signatures[i], seen, signerMap, signers, r);
      if signerId.Err? {
        BadPrefix(signatures, i + 1, signers, r);
        return Err(signerId.message);
      }
      seen := seen + {signerId.value};
      verifiedSigners := verifiedSigners + [signerId.value];
    }
    assert signatures[..|signatures|] == signatures;
    return Ok(verifiedSigners);
  }

  // ---------- Stage one: the verification ----------

  /** The three inputs of a verification, each as its parser reads it. */
  datatype Inputs = Inputs(candidate: Candidate, policy: Policy, bundle: Bundle, digest: string)

  function ReadJson<T>(bytes: Bytes, parse: Json -> Result<T>, p: Platform): Result<T> {
    match p.parseJson(bytes)
    case None => Err("not valid JSON")
    case Some(v) => parse(v)
  }

  function ReadInputs(candidate: Bytes, policy: Bytes, signatures: Bytes, p: Platform): Result<Inputs> {
    var c :- ReadJson(candidate, ParseCandidate, p);
    var o :- ReadJson(policy, ParsePolicy, p);
    var b :- ReadJson(signatures, ParseSignatureBundle, p);
    Ok(Inputs(c, o, b, p.sha256(candidate)))
  }

  function RulesFor(i: Inputs, p: Platform): Rules {
    RulesOf(ReleaseApprovalPayload(i.policy.policyId, i.digest), p)
  }

  ghost predicate InputsApproved(i: Inputs, p: Platform) {
    Approved(i.candidate, i.policy, i.bundle, i.digest, RulesFor(i, p))
  }

  function EvidenceOf(i: Inputs, ids: seq<string>): Evidence {
    Evidence(i.policy.policyId, i.digest, i.candidate.sourceRevision, i.candidate.codeHash, i.policy.threshold, Sort(ids))
  }

  /** `verifyReleaseApproval`, from the bytes of its three files to the evidence it writes. */
  method VerifyReleaseApproval(candidate: Bytes, policy: Bytes, signatures: Bytes, p: Platform) returns (v: Result<Evidence>)
    ensures v.Ok? <==> ReadInputs(candidate, policy, signatures, p).Ok? && InputsApproved(ReadInputs(candidate, policy, signatures, p).value, p)
    ensures v.Ok? ==>
              var i := ReadInputs(candidate, policy, signatures, p).value;
              EntriesOk(i.bundle.signatures, i.policy.signers, RulesFor(i, p))
              && v.value == EvidenceOf(i, EntryIds(i.bundle.signatures, RulesFor(i, p)))
    // On the files and the platform alone: it succeeds exactly when there is evidence, and gives that.
    ensures v.Ok? ==> Approves(v.value, candidate, policy, signatures, p)
    ensures v.Err? ==> forall e :: !Approves(e, candidate, policy, signatures, p)
    // Every signer it names has signed this policy and these candidate bytes, and so has every entry of the
    // bundle: one entry that does not verify under its signer's key is enough for a refusal.
    ensures v.Ok? ==> AllSigned(v.value.verifiedSigners, v.value.policyId, candidate, policy, signatures, p)
    ensures HasUnsignedEntry(candidate, policy, signatures, p) ==> v.Err?
    // What is written is read back by the second stage.
    ensures v.Ok? ==> ParseApproval(EvidenceJson(v.value)) == Ok(v.value)
  {
    var inputs := ReadInputs(candidate, policy, signatures, p);
    forall e | Approves(e, candidate, policy, signatures, p)
      ensures inputs.Ok? && Yields(inputs.value, e, p)
    {
      var _ := ApprovedIsYielded(candidate, policy, signatures, p, e);
    }
    if inputs.Err? {
      return Err(inputs.message);
    }
    var i := inputs.value;
    v := Verify(i, RulesFor(i, p));
    if v.Ok? {
      ParsedInputsOk(candidate, policy, signatures, p);
      StagesAgree(i, p, v.value);
      YieldedIsApproved(candidate, policy, signatures, p, i, v.value);
      ApprovedAreSigned(candidate, policy, signatures, p, v.value);
      ApprovedHasNoUnsigned(candidate, policy, signatures, p, v.value);
    }
  }

  method Verify(i: Inputs, r: Rules) returns (v: Result<Evidence>)
    ensures v.Ok? <==> Approved(i.candidate, i.policy, i.bundle, i.digest, r)
    ensures v.Ok? ==> EntriesOk(i.bundle.signatures, i.policy.signers, r)
                      && v.value == EvidenceOf(i, EntryIds(i.bundle.signatures, r))
  {
    if i.candidate.required != i.policy.threshold {
      return Err("thresholds differ");
    }
    var read := ReadSigners(i.policy.signers, r);
    if read.Err? {
      return Err(read.message);
    }
    var signerMap := read.value;
    MapEnabled(signerMap, i.policy.signers, r);
    var enabledSigners := set id | id in signerMap && signerMap[id].enabled;
    if i.policy.threshold > |enabledSigners| {
      return Err("threshold exceeds enabled signer count");
    }
    if i.bundle.policyId != i.policy.policyId || i.bundle.candidateSha256 != i.digest {
      return Err("bundle does not match policy and candidate");
    }
    var verified := VerifyEntries(i.bundle.signatures, signerMap, i.policy.signers, r);
    if verified.Err? {
      return Err(verified.message);
    }
    if |verified.value| < i.policy.threshold {
      return Err("not enough signatures");
    }
    return Ok(EvidenceOf(i, verified.value));
  }

  // ---------- What evidence is worth ----------

  /** The evidence that verifying `i` yields. */
  ghost predicate Yields(i: Inputs, e: Evidence, p: Platform) {
    InputsApproved(i, p) && e == EvidenceOf(i, EntryIds(i.bundle.signatures, RulesFor(i, p)))
  }

  /** The signed text determines the policy and the candidate. */
  lemma PayloadInjective(policyId: string, digest: string, policyId': string, digest': string)
    requires IsIdentifier(policyId) && IsIdentifier(policyId')
    requires ReleaseApprovalPayload(policyId, digest) == ReleaseApprovalPayload(policyId', digest')
    ensures policyId == policyId' && digest == digest'
  {
    var header := "telegram-garant-ton-release-v1\n";
    assert ReleaseApprovalPayload(policyId, digest) == header + (policyId + "\n" + (digest + "\n"));
    assert ReleaseApprovalPayload(policyId', digest') == header + (policyId' + "\n" + (digest' + "\n"));
    SamePrefix(header, policyId + "\n" + (digest + "\n"), policyId' + "\n" + (digest' + "\n"));
    LineInjective(policyId, digest + "\n", policyId', digest' + "\n");
    assert (digest + "\n")[..|digest + "\n"| - 1] == digest && (digest' + "\n")[..|digest' + "\n"| - 1] == digest';
  }

  lemma SamePrefix(header: string, a: string, b: string)
    requires header + a == header + b
    ensures a == b
  {
    assert (header + a)[|header|..] == a && (header + b)[|header|..] == b;
  }

  /** A first line without a newline in it is where the first newline ends it. */
  lemma LineInjective(a: string, rest: string, b: string, rest': string)
    requires '\n' !in a && '\n' !in b && a + "\n" + rest == b + "\n" + rest'
    ensures a == b && rest == rest'
  {
    var s, t := a + "\n" + rest, b + "\n" + rest';
    assert s[|a|] == '\n' && t[|b|] == '\n';
    assert forall i | 0 <= i < |a| :: s[i] == a[i];
    assert forall i | 0 <= i < |b| :: t[i] == b[i];
    assert |a| == |b|;
    assert s[..|a|] == a && t[..|b|] == b;
    assert s[|a| + 1..] == rest && t[|b| + 1..] == rest';
  }

  /** Evidence names at least two signers, all different, in order; each is enabled in the policy and
      validly signed this policy's identifier and this candidate's digest. */
  lemma EvidenceIsApproval(i: Inputs, p: Platform, e: Evidence)
    requires Yields(i, e, p) && i.policy.threshold >= 2
    ensures Increasing(e.verifiedSigners) && |e.verifiedSigners| == |i.bundle.signatures| >= e.threshold >= 2
    ensures multiset(e.verifiedSigners) == multiset(NamesIn(i.bundle.signatures))
    ensures var text := "telegram-garant-ton-release-v1\n" + i.policy.policyId + "\n" + i.digest + "\n";
            forall id | id in e.verifiedSigners :: HasSigned(id, i.bundle.signatures, i.policy.signers, text, p)
  {
    var text := "telegram-garant-ton-release-v1\n" + i.policy.policyId + "\n" + i.digest + "\n";
    assert RulesFor(i, p) == RulesOf(text, p);
    EntriesReadIff(i.bundle.signatures, i.policy.signers, text, p);
    SortKeeps(NamesIn(i.bundle.signatures));
    ListedHaveSigned(e.verifiedSigners, i.bundle.signatures, i.policy.signers, text, p);
  }

  lemma ListedHaveSigned(listed: seq<string>, entries: seq<Json>, signers: seq<Json>, text: string, p: Platform)
    requires multiset(listed) == multiset(NamesIn(entries))
    requires forall j | 0 <= j < |entries| :: SignedBySome(NameIn(entries[j]), entries[j], signers, text, p)
    ensures forall id | id in listed :: HasSigned(id, entries, signers, text, p)
  {
    var names := NamesIn(entries);
    forall id | id in listed
      ensures HasSigned(id, entries, signers, text, p)
    {
      assert id in multiset(listed) && id in multiset(names);
      var j :| 0 <= j < |names| && names[j] == id;
      assert SignedBySome(NameIn(entries[j]), entries[j], signers, text, p);
    }
  }

  // ---------- What approval is, in the files and on the platform ----------

  function KeysOf(v: Option<Json>): set<string> {
    if v.Some? && v.value.JObject? then v.value.fields.Keys else {}
  }

  function FieldOf(v: Option<Json>, key: string): Option<Json> {
    if key in KeysOf(v) then Some(v.value.fields[key]) else None
  }

  /** The elements of the array `key` of a JSON object. */
  function ItemsOf(v: Option<Json>, key: string): seq<Json> {
    match FieldOf(v, key) case Some(JArray(items)) => items case _ => []
  }

  function TextOf(v: Option<Json>): string {
    match v case Some(JString(text)) => text case _ => ""
  }

  /** 3 to 128 letters, digits, hyphens, full stops, colons and low lines. */
  ghost predicate IsName(s: string) {
    3 <= |s| < 129 && forall i | 0 <= i < |s| ::
      var n := s[i] as int; 48 <= n <= 57 || 65 <= n <= 90 || 97 <= n <= 122 || n in {45, 46, 58, 95}
  }

  /** 64 hexadecimal digits. */
  ghost predicate IsDigest(s: string) {
    |s| == 64 && forall i | 0 <= i < |s| :: var n := s[i] as int; 48 <= n <= 57 || 97 <= n <= 102
  }

  /** 1 to 256 characters other than control characters. */
  ghost predicate IsRevision(s: string) {
    0 < |s| < 257 && forall i | 0 <= i < |s| :: 32 <= s[i] as int && s[i] as int != 127
  }

  /** The Base64 of 64 bytes. */
  ghost predicate IsBase64Of64(s: string) {
    |s| == 88 && s[86] == s[87] == '=' && forall i | 0 <= i < 86 ::
      var n := s[i] as int; 48 <= n <= 57 || 65 <= n <= 90 || 97 <= n <= 122 || n in {43, 47}
  }

  /** A pristine release candidate that says this much. */
  ghost predicate CandidateSays(c: Option<Json>, sourceRevision: string, codeHash: string, required: int) {
    && FieldOf(c, "schemaVersion") == Some(JNumber(1.0))
    && FieldOf(c, "status") == Some(JString("unsigned_release_candidate"))
    && FieldOf(c, "contract") == Some(JString("TonNativeEscrow"))
    && FieldOf(c, "sourceRevision") == Some(JString(sourceRevision)) && IsRevision(sourceRevision)
    && FieldOf(c, "codeHash") == Some(JString(codeHash)) && IsDigest(codeHash)
    && KeysOf(FieldOf(c, "approvals")) == {"required", "signatures"}
    && FieldOf(FieldOf(c, "approvals"), "required") == Some(JNumber(required as real)) && 2 <= required
    && FieldOf(FieldOf(c, "approvals"), "signatures") == Some(JArray([]))
  }

  /** A policy of this name and threshold, with at most 256 signers. */
  ghost predicate PolicySays(o: Option<Json>, policyId: string, threshold: int) {
    && KeysOf(o) == {"schemaVersion", "policyId", "threshold", "signers"}
    && FieldOf(o, "schemaVersion") == Some(JNumber(1.0))
    && FieldOf(o, "policyId") == Some(JString(policyId)) && IsName(policyId)
    && FieldOf(o, "threshold") == Some(JNumber(threshold as real)) && 2 <= threshold
    && FieldOf(o, "signers") == Some(JArray(ItemsOf(o, "signers"))) && |ItemsOf(o, "signers")| <= 256
  }

  /** A bundle for this policy and digest, with at most 256 entries. */
  ghost predicate BundleSays(b: Option<Json>, policyId: string, digest: string) {
    && KeysOf(b) == {"schemaVersion", "policyId", "candidateSha256", "signatures"}
    && FieldOf(b, "schemaVersion") == Some(JNumber(1.0))
    && FieldOf(b, "policyId") == Some(JString(policyId))
    && FieldOf(b, "candidateSha256") == Some(JString(digest)) && IsDigest(digest)
    && FieldOf(b, "signatures") == Some(JArray(ItemsOf(b, "signatures"))) && |ItemsOf(b, "signatures")| <= 256
  }

  /** An Ed25519 signer of the policy, by name, with the key that the platform reads. */
  ghost predicate IsSigner(s: Json, id: string, enabled: bool, key: Key, p: Platform) {
    && KeysOf(Some(s)) == {"id", "algorithm", "publicKeyPem", "enabled"}
    && s.fields["id"] == JString(id) && IsName(id)
    && s.fields["algorithm"] == JString("ed25519") && s.fields["enabled"] == JBool(enabled)
    && s.fields["publicKeyPem"].JString? && p.readEd25519Key(s.fields["publicKeyPem"].text) == Some(key)
  }

  /** All are signers, and under different names. */
  ghost predicate AreSigners(signers: seq<Json>, p: Platform) {
    && (forall m | 0 <= m < |signers| :: IsSomeSigner(signers[m], p))
    && forall l, m | 0 <= l < m < |signers| :: FieldOf(Some(signers[l]), "id") != FieldOf(Some(signers[m]), "id")
  }

  ghost predicate IsSomeSigner(s: Json, p: Platform) {
    exists id, enabled, key :: IsSigner(s, id, enabled, key, p)
  }

  /** The names of the enabled ones. */
  ghost function EnabledNames(signers: seq<Json>): set<string> {
    set m | 0 <= m < |signers| && FieldOf(Some(signers[m]), "enabled") == Some(JBool(true)) :: TextOf(FieldOf(Some(signers[m]), "id"))
  }

  /** The text that is signed for a policy and the bytes of a candidate. */
  function SignedText(policyId: string, candidate: Bytes, p: Platform): string {
    "telegram-garant-ton-release-v1\n" + policyId + "\n" + p.sha256(candidate) + "\n"
  }

  /** The bundle's entry `e` holds, in canonical Base64, 64 bytes that the platform verifies as a signature
      of `text` under the key of the policy's enabled signer `s`, and both bear the name `id`. */
  ghost predicate Signed(id: string, e: Json, s: Json, text: string, p: Platform) {
    && KeysOf(Some(e)) == {"signerId", "algorithm", "signatureBase64"}
    && e.fields["signerId"] == JString(id) && IsName(id) && e.fields["algorithm"] == JString("ed25519")
    && e.fields["signatureBase64"].JString? && IsBase64Of64(e.fields["signatureBase64"].text)
    && var bytes := p.decodeBase64(e.fields["signatureBase64"].text);
       |bytes| == 64 && p.encodeBase64(bytes) == e.fields["signatureBase64"].text
       && exists key :: IsSigner(s, id, true, key, p) && p.verifySignature(text, key, bytes)
  }

  ghost predicate SignedBySome(id: string, e: Json, signers: seq<Json>, text: string, p: Platform) {
    exists m | 0 <= m < |signers| :: Signed(id, e, signers[m], text, p)
  }

  function NameIn(e: Json): string {
    TextOf(FieldOf(Some(e), "signerId"))
  }

  function NamesIn(entries: seq<Json>): (names: seq<string>)
    ensures |names| == |entries| && forall j | 0 <= j < |entries| :: names[j] == NameIn(entries[j])
  {
    seq(|entries|, j requires 0 <= j < |entries| => NameIn(entries[j]))
  }

  /** Enough enabled signers, and a signature of `text` by as many of them in as many entries, with no
      entry that is anything else. */
  ghost predicate Backed(n: int, entries: seq<Json>, signers: seq<Json>, text: string, p: Platform) {
    && AreSigners(signers, p) && n <= |EnabledNames(signers)|
    && (forall j | 0 <= j < |entries| :: SignedBySome(NameIn(entries[j]), entries[j], signers, text, p))
    && Distinct(NamesIn(entries)) && n <= |entries|
  }

  /** The evidence states what the three files say and agree on, and lists in order the names of those who
      signed. */
  ghost predicate Approves(e: Evidence, candidate: Bytes, policy: Bytes, signatures: Bytes, p: Platform) {
    var c, o, b := p.parseJson(candidate), p.parseJson(policy), p.parseJson(signatures);
    && CandidateSays(c, e.sourceRevision, e.codeHash, e.threshold)
    && PolicySays(o, e.policyId, e.threshold)
    && BundleSays(b, e.policyId, e.candidateSha256) && e.candidateSha256 == p.sha256(candidate)
    && Backed(e.threshold, ItemsOf(b, "signatures"), ItemsOf(o, "signers"), SignedText(e.policyId, candidate, p), p)
    && Increasing(e.verifiedSigners) && multiset(e.verifiedSigners) == multiset(NamesIn(ItemsOf(b, "signatures")))
  }

  // ----- The parsers read what the files say -----

  lemma ShapesIff(s: string)
    ensures IsIdentifier(s) <==> IsName(s)
    ensures IsSha256(s) <==> IsDigest(s)
    ensures IsRevisionJson(Some(JString(s))) <==> IsRevision(s)
    ensures IsSignatureText(s) <==> IsBase64Of64(s)
  {
  }

  lemma CandidateReadIff(v: Json, c: Candidate)
    ensures ParseCandidate(v) == Ok(c) <==> CandidateSays(Some(v), c.sourceRevision, c.codeHash, c.required)
  {
    ShapesIff(c.sourceRevision);
    ShapesIff(c.codeHash);
    assert (c.required as real).Floor == c.required;
  }

  lemma PolicyReadIff(v: Json, o: Policy)
    ensures ParsePolicy(v) == Ok(o) <==> PolicySays(Some(v), o.policyId, o.threshold) && o.signers == ItemsOf(Some(v), "signers")
  {
    ShapesIff(o.policyId);
    assert (o.threshold as real).Floor == o.threshold;
  }

  lemma BundleReadIff(v: Json, b: Bundle)
    ensures ParseSignatureBundle(v) == Ok(b) <==>
            BundleSays(Some(v), b.policyId, b.candidateSha256) && b.signatures == ItemsOf(Some(v), "signatures")
  {
    ShapesIff(b.candidateSha256);
  }

  /** The inputs of a verification are what the three files say. */
  lemma InputsReadIff(candidate: Bytes, policy: Bytes, signatures: Bytes, p: Platform, i: Inputs)
    ensures ReadInputs(candidate, policy, signatures, p) == Ok(i) <==>
            && CandidateSays(p.parseJson(candidate), i.candidate.sourceRevision, i.candidate.codeHash, i.candidate.required)
            && PolicySays(p.parseJson(policy), i.policy.policyId, i.policy.threshold)
            && i.policy.signers == ItemsOf(p.parseJson(policy), "signers")
            && BundleSays(p.parseJson(signatures), i.bundle.policyId, i.bundle.candidateSha256)
            && i.bundle.signatures == ItemsOf(p.parseJson(signatures), "signatures")
            && i.digest == p.sha256(candidate)
  {
    if p.parseJson(candidate).Some? {
      CandidateReadIff(p.parseJson(candidate).value, i.candidate);
    }
    if p.parseJson(policy).Some? {
      PolicyReadIff(p.parseJson(policy).value, i.policy);
    }
    if p.parseJson(signatures).Some? {
      BundleReadIff(p.parseJson(signatures).value, i.bundle);
    }
  }

  lemma SignerReadIff(s: Json, c: Configured, text: string, p: Platform)
    ensures ReadSigner(s, RulesOf(text, p)) == Some(c) <==> IsSigner(s, c.id, c.enabled, c.key, p)
  {
    ShapesIff(c.id);
  }

  lemma SignersReadIff(signers: seq<Json>, text: string, p: Platform)
    ensures UniqueSigners(signers, RulesOf(text, p)) <==> AreSigners(signers, p)
    ensures AreSigners(signers, p) ==> EnabledIds(signers, RulesOf(text, p)) == EnabledNames(signers)
  {
    var r := RulesOf(text, p);
    forall m | 0 <= m < |signers|
      ensures ReadSigner(signers[m], r).Some? <==> IsSomeSigner(signers[m], p)
      ensures ReadSigner(signers[m], r).Some? ==>
                && FieldOf(Some(signers[m]), "id") == Some(JString(ReadSigner(signers[m], r).value.id))
                && FieldOf(Some(signers[m]), "enabled") == Some(JBool(ReadSigner(signers[m], r).value.enabled))
    {
      SignerIsRead(signers[m], text, p);
    }
  }

  lemma SignerIsRead(s: Json, text: string, p: Platform)
    ensures var r := RulesOf(text, p);
            && (ReadSigner(s, r).Some? <==> IsSomeSigner(s, p))
            && (ReadSigner(s, r).Some? ==>
                  && FieldOf(Some(s), "id") == Some(JString(ReadSigner(s, r).value.id))
                  && FieldOf(Some(s), "enabled") == Some(JBool(ReadSigner(s, r).value.enabled)))
  {
    var r := RulesOf(text, p);
    if ReadSigner(s, r).Some? {
      SignerReadIff(s, ReadSigner(s, r).value, text, p);
    }
    if IsSomeSigner(s, p) {
      var id, enabled, key :| IsSigner(s, id, enabled, key, p);
      SignerReadIff(s, Configured(id, enabled, key), text, p);
    }
  }

  lemma EntryReadIff(e: Json, signers: seq<Json>, text: string, p: Platform)
    ensures EntryOk(e, signers, RulesOf(text, p)) <==> SignedBySome(NameIn(e), e, signers, text, p)
    ensures ParseEntry(e).Some? ==> ParseEntry(e).value.signerId == NameIn(e)
  {
    var r := RulesOf(text, p);
    if EntryOk(e, signers, r) {
      var key :| EnabledSigner(NameIn(e), key, signers, r) && r.verifies(ParseEntry(e).value, key);
      var m :| 0 <= m < |signers| && ReadSigner(signers[m], r) == Some(Configured(NameIn(e), true, key));
      EntryIsSigned(e, signers[m], key, text, p);
    }
    if SignedBySome(NameIn(e), e, signers, text, p) {
      var m :| 0 <= m < |signers| && Signed(NameIn(e), e, signers[m], text, p);
      var key := SignedIsEntry(e, signers[m], text, p);
      assert EnabledSigner(NameIn(e), key, signers, r);
    }
  }

  lemma EntryIsSigned(e: Json, s: Json, key: Key, text: string, p: Platform)
    requires ParseEntry(e).Some? && SignatureVerifies(ParseEntry(e).value, key, text, p)
    requires ReadSigner(s, RulesOf(text, p)) == Some(Configured(NameIn(e), true, key))
    ensures Signed(NameIn(e), e, s, text, p)
  {
    SignerReadIff(s, Configured(NameIn(e), true, key), text, p);
    ShapesIff(NameIn(e));
    ShapesIff(ParseEntry(e).value.signatureBase64);
  }

  lemma SignedIsEntry(e: Json, s: Json, text: string, p: Platform) returns (key: Key)
    requires Signed(NameIn(e), e, s, text, p)
    ensures ParseEntry(e).Some? && SignatureVerifies(ParseEntry(e).value, key, text, p)
    ensures ReadSigner(s, RulesOf(text, p)) == Some(Configured(NameIn(e), true, key))
  {
    ShapesIff(NameIn(e));
    ShapesIff(e.fields["signatureBase64"].text);
    key :| IsSigner(s, NameIn(e), true, key, p) && p.verifySignature(text, key, p.decodeBase64(e.fields["signatureBase64"].text));
    SignerReadIff(s, Configured(NameIn(e), true, key), text, p);
  }

  lemma EntriesReadIff(entries: seq<Json>, signers: seq<Json>, text: string, p: Platform)
    ensures EntriesOk(entries, signers, RulesOf(text, p)) <==>
            && (forall j | 0 <= j < |entries| :: SignedBySome(NameIn(entries[j]), entries[j], signers, text, p))
            && Distinct(NamesIn(entries))
    ensures EntriesOk(entries, signers, RulesOf(text, p)) ==> EntryIds(entries, RulesOf(text, p)) == NamesIn(entries)
  {
    forall j | 0 <= j < |entries|
      ensures EntryOk(entries[j], signers, RulesOf(text, p)) <==> SignedBySome(NameIn(entries[j]), entries[j], signers, text, p)
      ensures ParseEntry(entries[j]).Some? ==> ParseEntry(entries[j]).value.signerId == NameIn(entries[j])
    {
      EntryReadIff(entries[j], signers, text, p);
    }
  }

  lemma BackedIff(n: int, entries: seq<Json>, signers: seq<Json>, text: string, p: Platform)
    ensures Backed(n, entries, signers, text, p) <==>
            && UniqueSigners(signers, RulesOf(text, p)) && n <= |EnabledIds(signers, RulesOf(text, p))|
            && EntriesOk(entries, signers, RulesOf(text, p)) && n <= |entries|
  {
    SignersReadIff(signers, text, p);
    EntriesReadIff(entries, signers, text, p);
  }

  /** Sorting the names of those who signed is listing them in order. */
  lemma SortedNames(names: seq<string>, listed: seq<string>)
    requires Distinct(names)
    ensures listed == Sort(names) <==> Increasing(listed) && multiset(listed) == multiset(names)
  {
    SortKeeps(names);
    if Increasing(listed) && multiset(listed) == multiset(names) {
      IncreasingIsUnique(listed, Sort(names));
    }
  }

  lemma YieldedIsApproved(candidate: Bytes, policy: Bytes, signatures: Bytes, p: Platform, i: Inputs, e: Evidence)
    requires ReadInputs(candidate, policy, signatures, p) == Ok(i) && Yields(i, e, p)
    ensures Approves(e, candidate, policy, signatures, p)
  {
    InputsReadIff(candidate, policy, signatures, p, i);
    var text := SignedText(e.policyId, candidate, p);
    assert RulesFor(i, p) == RulesOf(text, p);
    BackedIff(e.threshold, i.bundle.signatures, i.policy.signers, text, p);
    EntriesReadIff(i.bundle.signatures, i.policy.signers, text, p);
    SortedNames(NamesIn(i.bundle.signatures), e.verifiedSigners);
  }

  lemma ApprovedIsYielded(candidate: Bytes, policy: Bytes, signatures: Bytes, p: Platform, e: Evidence) returns (i: Inputs)
    requires Approves(e, candidate, policy, signatures, p)
    ensures ReadInputs(candidate, policy, signatures, p) == Ok(i) && Yields(i, e, p)
  {
    var entries, signers := ItemsOf(p.parseJson(signatures), "signatures"), ItemsOf(p.parseJson(policy), "signers");
    i := Inputs(Candidate(e.sourceRevision, e.codeHash, e.threshold), Policy(e.policyId, e.threshold, signers),
                Bundle(e.policyId, e.candidateSha256, entries), e.candidateSha256);
    InputsReadIff(candidate, policy, signatures, p, i);
    var text := SignedText(e.policyId, candidate, p);
    assert RulesFor(i, p) == RulesOf(text, p);
    BackedIff(e.threshold, entries, signers, text, p);
    EntriesReadIff(entries, signers, text, p);
    SortedNames(NamesIn(entries), e.verifiedSigners);
  }

  /** Every listed name has signed, and every entry is such a signature. */
  ghost predicate AllSigned(ids: seq<string>, policyId: string, candidate: Bytes, policy: Bytes, signatures: Bytes, p: Platform) {
    var entries, signers := ItemsOf(p.parseJson(signatures), "signatures"), ItemsOf(p.parseJson(policy), "signers");
    var text := SignedText(policyId, candidate, p);
    && (forall id | id in ids :: HasSigned(id, entries, signers, text, p))
    && forall j | 0 <= j < |entries| :: NameIn(entries[j]) in ids && SignedBySome(NameIn(entries[j]), entries[j], signers, text, p)
  }

  ghost predicate HasSigned(id: string, entries: seq<Json>, signers: seq<Json>, text: string, p: Platform) {
    exists j | 0 <= j < |entries| :: SignedBySome(id, entries[j], signers, text, p)
  }

  lemma ApprovedAreSigned(candidate: Bytes, policy: Bytes, signatures: Bytes, p: Platform, e: Evidence)
    requires Approves(e, candidate, policy, signatures, p)
    ensures AllSigned(e.verifiedSigners, e.policyId, candidate, policy, signatures, p)
  {
    var entries := ItemsOf(p.parseJson(signatures), "signatures");
    var names := NamesIn(entries);
    ListedHaveSigned(e.verifiedSigners, entries, ItemsOf(p.parseJson(policy), "signers"), SignedText(e.policyId, candidate, p), p);
    forall j | 0 <= j < |entries|
      ensures NameIn(entries[j]) in e.verifiedSigners
    {
      assert names[j] in multiset(names) && names[j] in multiset(e.verifiedSigners);
    }
  }

  /** Some entry of the bundle is not a signature, by any signer of the policy, of the policy's text. */
  ghost predicate HasUnsignedEntry(candidate: Bytes, policy: Bytes, signatures: Bytes, p: Platform) {
    var o, entries := p.parseJson(policy), ItemsOf(p.parseJson(signatures), "signatures");
    var text := SignedText(TextOf(FieldOf(o, "policyId")), candidate, p);
    exists j | 0 <= j < |entries| :: Unsigned(entries[j], ItemsOf(o, "signers"), text, p)
  }

  ghost predicate Unsigned(e: Json, signers: seq<Json>, text: string, p: Platform) {
    forall id :: !SignedBySome(id, e, signers, text, p)
  }

  lemma ApprovedHasNoUnsigned(candidate: Bytes, policy: Bytes, signatures: Bytes, p: Platform, e: Evidence)
    requires Approves(e, candidate, policy, signatures, p)
    ensures !HasUnsignedEntry(candidate, policy, signatures, p)
  {
  }

  // ---------- Stage two: the inputs ----------

  /** `parseSignerList` */
  function ParseSignerList(v: Option<Json>): Result<seq<string>> {
    if !IsArray(v) || |v.value.items| == 0 || |v.value.items| > 256 then Err("must be a non-empty signer list")
    else
      var items := v.value.items;
      if exists i | 0 <= i < |items| :: !IsIdentifierJson(Some(items[i])) then Err("is invalid")
      else
        var signers := Texts(items);
        if |Elements(signers)| != |signers| then Err("must contain distinct signers")
        else if Sort(signers) != signers then Err("must be sorted")
        else Ok(signers)
  }

  function Texts(items: seq<Json>): (texts: seq<string>)
    requires forall i | 0 <= i < |items| :: items[i].JString?
    ensures |texts| == |items| && forall i | 0 <= i < |items| :: texts[i] == items[i].text
  {
    seq(|items|, i requires 0 <= i < |items| => items[i].text)
  }

  /** A signer list is accepted exactly when it is a strictly increasing list of 1 to 256 identifiers. */
  lemma SignerListIff(v: Option<Json>)
    ensures ParseSignerList(v).Ok? <==>
            && IsArray(v) && 1 <= |v.value.items| <= 256
            && (forall i | 0 <= i < |v.value.items| :: IsIdentifierJson(Some(v.value.items[i])))
            && Increasing(Texts(v.value.items))
    ensures ParseSignerList(v).Ok? ==> ParseSignerList(v).value == Texts(v.value.items)
  {
    if IsArray(v) && forall i | 0 <= i < |v.value.items| :: IsIdentifierJson(Some(v.value.items[i])) {
      SizeIff(Texts(v.value.items));
      IncreasingIff(Texts(v.value.items));
    }
  }

  datatype Network = Mainnet | Testnet

  datatype Record = Record(
    targetNetwork: Network,
    candidateSha256: string,
    sourceRevision: string,
    codeHash: string,
    policyId: string,
    threshold: int,
    verifiedSigners: seq<string>)

  const SOURCE_FILES := {"Acton.toml", "package-lock.json", "contracts/TonNativeEscrow.tolk", "contracts/types.tolk"}

  /** `assertExactKeys` of the second stage: nothing unexpected, nothing missing. */
  predicate ExactObject(v: Option<Json>, keys: set<string>) {
    IsObject(v) && v.value.fields.Keys == keys
  }

  predicate NonEmptyText(v: Option<Json>) {
    IsString(v) && v.value.text != ""
  }

  /** `/^(0|[1-9][0-9]*)$/` */
  predicate IsDecimalText(v: Option<Json>) {
    IsString(v) && v.value.text != "" && (forall i | 0 <= i < |v.value.text| :: '0' <= v.value.text[i] <= '9')
    && (v.value.text[0] == '0' ==> |v.value.text| == 1)
  }

  predicate ArtifactOk(v: Option<Json>) {
    ExactObject(v, {"bocSha256"}) && IsSha256Json(Member(v.value.fields, "bocSha256"))
  }

  predicate ToolchainsOk(v: Option<Json>) {
    ExactObject(v, {"blueprintTolk", "acton"})
    && NonEmptyText(Member(v.value.fields, "blueprintTolk")) && NonEmptyText(Member(v.value.fields, "acton"))
  }

  predicate ArtifactsOk(v: Option<Json>) {
    ExactObject(v, {"blueprint", "acton"})
    && ArtifactOk(Member(v.value.fields, "blueprint")) && ArtifactOk(Member(v.value.fields, "acton"))
  }

  predicate SourcesOk(v: Option<Json>) {
    ExactObject(v, SOURCE_FILES) && forall f | f in SOURCE_FILES :: IsSha256Json(Member(v.value.fields, f))
  }

  predicate PristineApprovals(v: Option<Json>) {
    && ExactObject(v, {"required", "signatures"})
    && IsSafeInteger(Member(v.value.fields, "required"))
    && v.value.fields["required"].number.Floor >= 2
    && Member(v.value.fields, "signatures") == Some(JArray([]))
  }

  /** `parseCandidate` of the second stage. */
  function ParseFullCandidate(v: Json): Result<Candidate> {
    if !ExactObject(Some(v), {"schemaVersion", "status", "contract", "sourceRevision", "codeHash", "minOperationalReserveNano",
                              "toolchains", "artifacts", "sources", "approvals"}) then Err("fields")
    else
      var f := v.fields;
      if !(&& IsNumber(Member(f, "schemaVersion"), 1)
           && IsText(Member(f, "status"), "unsigned_release_candidate")
           && IsText(Member(f, "contract"), "TonNativeEscrow")) then Err("identity")
      else if !(IsRevisionJson(Member(f, "sourceRevision")) && IsSha256Json(Member(f, "codeHash"))) then Err("revision or code hash")
      else if !IsDecimalText(Member(f, "minOperationalReserveNano")) then Err("operational reserve")
      else if !ToolchainsOk(Member(f, "toolchains")) then Err("toolchains")
      else if !ArtifactsOk(Member(f, "artifacts")) then Err("artifacts")
      else if !SourcesOk(Member(f, "sources")) then Err("sources")
      else if !PristineApprovals(Member(f, "approvals")) then Err("approvals are not pristine")
      else Ok(Candidate(f["sourceRevision"].text, f["codeHash"].text, f["approvals"].fields["required"].number.Floor))
  }

  /** Threshold of at least two, as a safe integer. */
  predicate IsThreshold(v: Option<Json>) {
    IsSafeInteger(v) && v.value.number.Floor >= 2
  }

  function ParseApproval(v: Json): Result<Evidence> {
    if !ExactObject(Some(v), {"schemaVersion", "status", "policyId", "candidateSha256", "sourceRevision", "codeHash",
                              "threshold", "verifiedSigners"}) then Err("fields")
    else
      var f := v.fields;
      if !(IsNumber(Member(f, "schemaVersion"), 1) && IsText(Member(f, "status"), "approved_release_evidence")) then Err("identity")
      else if !(&& IsIdentifierJson(Member(f, "policyId"))
                && IsSha256Json(Member(f, "candidateSha256"))
                && IsRevisionJson(Member(f, "sourceRevision"))
                && IsSha256Json(Member(f, "codeHash"))
                && IsThreshold(Member(f, "threshold"))) then Err("fields are invalid")
      else
        var signers :- ParseSignerList(Member(f, "verifiedSigners"));
        if |signers| < f["threshold"].number.Floor then Err("fewer signers than its threshold")
        else Ok(Evidence(f["policyId"].text, f["candidateSha256"].text, f["sourceRevision"].text, f["codeHash"].text,
                         f["threshold"].number.Floor, signers))
  }

  const RECORD_FIELDS := {"schemaVersion", "status", "contract", "targetNetwork", "expectedCandidateSha256",
                          "expectedSourceRevision", "expectedCodeHash", "expectedPolicyId", "expectedApprovalThreshold",
                          "expectedVerifiedSigners"}

  predicate RecordIdentityOk(f: map<string, Json>) {
    && IsNumber(Member(f, "schemaVersion"), 1)
    && IsText(Member(f, "status"), "deployment_authorization_request")
    && IsText(Member(f, "contract"), "TonNativeEscrow")
    && (IsText(Member(f, "targetNetwork"), "mainnet") || IsText(Member(f, "targetNetwork"), "testnet"))
  }

  predicate RecordExpectationsOk(f: map<string, Json>) {
    && IsSha256Json(Member(f, "expectedCandidateSha256"))
    && IsRevisionJson(Member(f, "expectedSourceRevision"))
    && IsSha256Json(Member(f, "expectedCodeHash"))
    && IsIdentifierJson(Member(f, "expectedPolicyId"))
    && IsThreshold(Member(f, "expectedApprovalThreshold"))
  }

  function ParseDeploymentRecord(v: Json): Result<Record> {
    if !ExactObject(Some(v), RECORD_FIELDS) then Err("fields")
    else if !RecordIdentityOk(v.fields) then Err("identity")
    else if !RecordExpectationsOk(v.fields) then Err("fields are invalid")
    else
      var f := v.fields;
      var signers :- ParseSignerList(Member(f, "expectedVerifiedSigners"));
      Ok(Record(if f["targetNetwork"].text == "mainnet" then Mainnet else Testnet,
                f["expectedCandidateSha256"].text, f["expectedSourceRevision"].text, f["expectedCodeHash"].text,
                f["expectedPolicyId"].text, f["expectedApprovalThreshold"].number.Floor, signers))
  }

  // ---------- The stages agree ----------

  /** What the first stage writes. */
  function EvidenceJson(e: Evidence): Json {
    JObject(map[
      "schemaVersion" := JNumber(1.0),
      "status" := JString("approved_release_evidence"),
      "policyId" := JString(e.policyId),
      "candidateSha256" := JString(e.candidateSha256),
      "sourceRevision" := JString(e.sourceRevision),
      "codeHash" := JString(e.codeHash),
      "threshold" := JNumber(e.threshold as real),
      "verifiedSigners" := JArray(seq(|e.verifiedSigners|, i requires 0 <= i < |e.verifiedSigners| => JString(e.verifiedSigners[i])))
    ])
  }

  /** A candidate the second stage accepts, the first reads the same. */
  lemma CandidateStagesAgree(v: Json)
    requires ParseFullCandidate(v).Ok?
    ensures ParseCandidate(v) == ParseFullCandidate(v)
  {
  }

  /** What the parsers of the first stage guarantee of its inputs. */
  predicate InputsOk(i: Inputs) {
    && IsIdentifier(i.policy.policyId)
    && i.policy.threshold >= 2
    && |i.policy.signers| <= 256
    && |i.bundle.signatures| <= 256
    && IsSha256(i.bundle.candidateSha256)
    && IsRevisionJson(Some(JString(i.candidate.sourceRevision)))
    && IsSha256(i.candidate.codeHash)
  }

  lemma ParsedInputsOk(candidate: Bytes, policy: Bytes, signatures: Bytes, p: Platform)
    requires ReadInputs(candidate, policy, signatures, p).Ok?
    ensures InputsOk(ReadInputs(candidate, policy, signatures, p).value)
  {
  }

  lemma EvidenceFields(i: Inputs, p: Platform, e: Evidence)
    requires InputsOk(i) && Yields(i, e, p)
    ensures Increasing(e.verifiedSigners) && 2 <= e.threshold <= |e.verifiedSigners| <= 256
    ensures forall j | 0 <= j < |e.verifiedSigners| :: IsIdentifier(e.verifiedSigners[j])
  {
    EvidenceIsApproval(i, p, e);
    var text := "telegram-garant-ton-release-v1\n" + i.policy.policyId + "\n" + i.digest + "\n";
    ListedIdentifiers(e.verifiedSigners, i.bundle.signatures, i.policy.signers, text, p);
  }

  lemma ListedIdentifiers(listed: seq<string>, entries: seq<Json>, signers: seq<Json>, text: string, p: Platform)
    requires forall id | id in listed :: HasSigned(id, entries, signers, text, p)
    ensures forall k | 0 <= k < |listed| :: IsIdentifier(listed[k])
  {
    forall k | 0 <= k < |listed|
      ensures IsIdentifier(listed[k])
    {
      assert listed[k] in listed;
      var j :| 0 <= j < |entries| && SignedBySome(listed[k], entries[j], signers, text, p);
      ShapesIff(listed[k]);
    }
  }

  lemma SignerListOfEvidence(signers: seq<string>, items: seq<Json>)
    requires Increasing(signers) && 1 <= |signers| <= 256 && forall j | 0 <= j < |signers| :: IsIdentifier(signers[j])
    requires |items| == |signers| && forall j | 0 <= j < |items| :: items[j] == JString(signers[j])
    ensures ParseSignerList(Some(JArray(items))) == Ok(signers)
  {
    assert Texts(items) == signers;
    SignerListIff(Some(JArray(items)));
  }

  predicate HasMembers(f: map<string, Json>, e: Evidence) {
    && f.Keys == {"schemaVersion", "status", "policyId", "candidateSha256", "sourceRevision", "codeHash", "threshold", "verifiedSigners"}
    && f["schemaVersion"] == JNumber(1.0)
    && f["status"] == JString("approved_release_evidence")
    && f["policyId"] == JString(e.policyId)
    && f["candidateSha256"] == JString(e.candidateSha256)
    && f["sourceRevision"] == JString(e.sourceRevision)
    && f["codeHash"] == JString(e.codeHash)
    && f["threshold"] == JNumber(e.threshold as real)
    && f["verifiedSigners"].JArray?
    && |f["verifiedSigners"].items| == |e.verifiedSigners|
    && forall j | 0 <= j < |e.verifiedSigners| :: f["verifiedSigners"].items[j] == JString(e.verifiedSigners[j])
  }

  lemma EvidenceMembers(e: Evidence)
    ensures HasMembers(EvidenceJson(e).fields, e)
  {
  }

  lemma EvidenceParses(f: map<string, Json>, e: Evidence)
    requires HasMembers(f, e)
    requires IsIdentifier(e.policyId) && IsSha256(e.candidateSha256) && IsSha256(e.codeHash)
    requires IsRevisionJson(Some(JString(e.sourceRevision)))
    requires Increasing(e.verifiedSigners) && 2 <= e.threshold <= |e.verifiedSigners| <= 256
    requires forall j | 0 <= j < |e.verifiedSigners| :: IsIdentifier(e.verifiedSigners[j])
    ensures ParseApproval(JObject(f)) == Ok(e)
  {
    SignerListOfEvidence(e.verifiedSigners, f["verifiedSigners"].items);
    assert (e.threshold as real).Floor == e.threshold;
  }

  /** Every evidence the first stage emits, the second reads back unchanged: the threshold is a safe
      integer because it is met by at most 256 signers. */
  lemma StagesAgree(i: Inputs, p: Platform, e: Evidence)
    requires InputsOk(i) && Yields(i, e, p)
    ensures ParseApproval(EvidenceJson(e)) == Ok(e)
  {
    EvidenceFields(i, p, e);
    EvidenceMembers(e);
    EvidenceParses(EvidenceJson(e).fields, e);
  }

  function NetworkName(n: Network): string {
    match n
    case Mainnet => "mainnet"
    case Testnet => "testnet"
  }

  /** `f` writes down the expectations `d`, member by member. */
  predicate HasExpectations(f: map<string, Json>, d: Record) {
    && f.Keys == RECORD_FIELDS
    && f["schemaVersion"] == JNumber(1.0)
    && f["status"] == JString("deployment_authorization_request")
    && f["contract"] == JString("TonNativeEscrow")
    && f["targetNetwork"] == JString(NetworkName(d.targetNetwork))
    && f["expectedCandidateSha256"] == JString(d.candidateSha256)
    && f["expectedSourceRevision"] == JString(d.sourceRevision)
    && f["expectedCodeHash"] == JString(d.codeHash)
    && f["expectedPolicyId"] == JString(d.policyId)
    && f["expectedApprovalThreshold"] == JNumber(d.threshold as real)
    && f["expectedVerifiedSigners"].JArray?
    && |f["expectedVerifiedSigners"].items| == |d.verifiedSigners|
    && forall j | 0 <= j < |d.verifiedSigners| :: f["expectedVerifiedSigners"].items[j] == JString(d.verifiedSigners[j])
  }

  ghost predicate ValidRecord(d: Record) {
    && IsIdentifier(d.policyId) && IsSha256(d.candidateSha256) && IsSha256(d.codeHash)
    && IsRevisionJson(Some(JString(d.sourceRevision)))
    && 2 <= d.threshold <= MAX_SAFE_INTEGER
    && Increasing(d.verifiedSigners) && 1 <= |d.verifiedSigners| <= 256
    && forall j | 0 <= j < |d.verifiedSigners| :: IsIdentifier(d.verifiedSigners[j])
  }

  lemma RecordChecks(f: map<string, Json>, d: Record)
    requires HasExpectations(f, d) && ValidRecord(d)
    ensures RecordIdentityOk(f) && RecordExpectationsOk(f)
  {
    assert (d.threshold as real).Floor == d.threshold;
  }

  lemma ValidRecordParses(f: map<string, Json>, d: Record)
    requires HasExpectations(f, d) && ValidRecord(d)
    ensures ParseDeploymentRecord(JObject(f)) == Ok(d)
  {
    RecordChecks(f, d);
    SignerListOfEvidence(d.verifiedSigners, f["expectedVerifiedSigners"].items);
    assert (d.threshold as real).Floor == d.threshold;
  }

  lemma InvalidRecordFails(f: map<string, Json>, d: Record)
    requires HasExpectations(f, d) && ParseDeploymentRecord(JObject(f)).Ok?
    ensures ValidRecord(d)
  {
    var items := f["expectedVerifiedSigners"].items;
    SignerListIff(Some(f["expectedVerifiedSigners"]));
    assert Texts(items) == d.verifiedSigners;
    assert (d.threshold as real).Floor == d.threshold;
    forall j | 0 <= j < |d.verifiedSigners|
      ensures IsIdentifier(d.verifiedSigners[j])
    {
      assert IsIdentifierJson(Some(items[j]));
    }
  }

  /** A deployment record is read as exactly what it writes down, and only if that is valid. */
  lemma RecordParses(f: map<string, Json>, d: Record)
    requires HasExpectations(f, d)
    ensures ParseDeploymentRecord(JObject(f)).Ok? <==> ValidRecord(d)
    ensures ValidRecord(d) ==> ParseDeploymentRecord(JObject(f)).value == d
  {
    if ValidRecord(d) {
      ValidRecordParses(f, d);
    } else if ParseDeploymentRecord(JObject(f)).Ok? {
      InvalidRecordFails(f, d);
    }
  }

  // ---------- Stage two: the authorisation ----------

  datatype Authorization = Authorization(
    targetNetwork: Network,
    candidateSha256: string,
    deploymentRecordSha256: string,
    sourceRevision: string,
    codeHash: string,
    policyId: string,
    approvalThreshold: int,
    verifiedSigners: seq<string>)

  function NetworkPrefix(n: Network): string {
    match n
    case Mainnet => "ton-mainnet-"
    case Testnet => "ton-testnet-"
  }

  /** The record expects exactly this evidence, under a policy of the network it targets. */
  predicate RecordBinds(d: Record, e: Evidence) {
    && d.candidateSha256 == e.candidateSha256
    && d.sourceRevision == e.sourceRevision
    && d.codeHash == e.codeHash
    && d.policyId == e.policyId
    && d.threshold == e.threshold
    && d.verifiedSigners == e.verifiedSigners
    && NetworkPrefix(d.targetNetwork) <= e.policyId
  }

  /** The comparisons of `authorizeDeployment`, then the verification over the same candidate. */
  method Authorize(c: Candidate, e: Evidence, d: Record, inputs: Result<Inputs>, digest: string, recordDigest: string, p: Platform)
    returns (v: Result<Authorization>)
    requires inputs.Ok? ==> inputs.value.candidate == c && inputs.value.digest == digest
    ensures v.Ok? <==> RecordBinds(d, e) && inputs.Ok? && Yields(inputs.value, e, p)
    ensures v.Ok? ==>
              v.value == Authorization(d.targetNetwork, e.candidateSha256, recordDigest, e.sourceRevision, e.codeHash,
                                       e.policyId, e.threshold, e.verifiedSigners)
  {
    if || e.candidateSha256 != digest || d.candidateSha256 != digest
       || e.sourceRevision != c.sourceRevision || d.sourceRevision != c.sourceRevision
       || e.codeHash != c.codeHash || d.codeHash != c.codeHash
       || e.threshold != c.required || d.threshold != e.threshold || d.policyId != e.policyId
    {
      return Err("does not match");
    }
    if !(NetworkPrefix(d.targetNetwork) <= e.policyId) {
      return Err("policy is not bound to the target network");
    }
    if d.verifiedSigners != e.verifiedSigners {
      return Err("signer binding does not match");
    }
    if inputs.Err? {
      return Err(inputs.message);
    }
    var cryptographic := Verify(inputs.value, RulesFor(inputs.value, p));
    if cryptographic.Err? {
      return Err(cryptographic.message);
    }
    if e != cryptographic.value {
      return Err("evidence does not match cryptographic verification");
    }
    return Ok(Authorization(d.targetNetwork, digest, recordDigest, c.sourceRevision, c.codeHash, e.policyId, e.threshold, e.verifiedSigners));
  }

  lemma SameCandidate(candidate: Bytes, policy: Bytes, signatures: Bytes, p: Platform)
    requires ReadJson(candidate, ParseFullCandidate, p).Ok? && ReadInputs(candidate, policy, signatures, p).Ok?
    ensures ReadInputs(candidate, policy, signatures, p).value.candidate == ReadJson(candidate, ParseFullCandidate, p).value
    ensures ReadInputs(candidate, policy, signatures, p).value.digest == p.sha256(candidate)
  {
    CandidateStagesAgree(p.parseJson(candidate).value);
  }

  // ----- What an authorisation is, in the files -----

  /** Everything the second stage wants of a release candidate that says this much. */
  ghost predicate CompleteCandidate(c: Option<Json>, sourceRevision: string, codeHash: string, required: int) {
    && CandidateSays(c, sourceRevision, codeHash, required) && required < 0x20_0000_0000_0000
    && KeysOf(c) == {"schemaVersion", "status", "contract", "sourceRevision", "codeHash", "minOperationalReserveNano",
                     "toolchains", "artifacts", "sources", "approvals"}
    && IsNumeral(FieldOf(c, "minOperationalReserveNano"))
    && KeysOf(FieldOf(c, "toolchains")) == {"blueprintTolk", "acton"}
    && TextOf(FieldOf(FieldOf(c, "toolchains"), "blueprintTolk")) != "" && TextOf(FieldOf(FieldOf(c, "toolchains"), "acton")) != ""
    && KeysOf(FieldOf(c, "artifacts")) == {"blueprint", "acton"}
    && HasDigest(FieldOf(FieldOf(c, "artifacts"), "blueprint")) && HasDigest(FieldOf(FieldOf(c, "artifacts"), "acton"))
    && var sources := FieldOf(c, "sources");
       && KeysOf(sources) == {"Acton.toml", "package-lock.json", "contracts/TonNativeEscrow.tolk", "contracts/types.tolk"}
       && IsDigest(TextOf(FieldOf(sources, "Acton.toml"))) && IsDigest(TextOf(FieldOf(sources, "package-lock.json")))
       && IsDigest(TextOf(FieldOf(sources, "contracts/TonNativeEscrow.tolk")))
       && IsDigest(TextOf(FieldOf(sources, "contracts/types.tolk")))
  }

  ghost predicate HasDigest(artifact: Option<Json>) {
    KeysOf(artifact) == {"bocSha256"} && IsDigest(TextOf(FieldOf(artifact, "bocSha256")))
  }

  /** A decimal number without leading zeros. */
  ghost predicate IsNumeral(v: Option<Json>) {
    var s := TextOf(v);
    s == "0" || (s != "" && s[0] != '0' && forall i | 0 <= i < |s| :: 48 <= s[i] as int <= 57)
  }

  lemma NumeralIff(v: Option<Json>)
    ensures IsDecimalText(v) <==> IsNumeral(v)
  {
  }

  lemma PartsReadIff(v: Option<Json>)
    ensures ToolchainsOk(v) <==> KeysOf(v) == {"blueprintTolk", "acton"} && TextOf(FieldOf(v, "blueprintTolk")) != "" && TextOf(FieldOf(v, "acton")) != ""
    ensures ArtifactOk(v) <==> HasDigest(v)
    ensures ArtifactsOk(v) <==> KeysOf(v) == {"blueprint", "acton"} && HasDigest(FieldOf(v, "blueprint")) && HasDigest(FieldOf(v, "acton"))
  {
  }

  lemma SourcesReadIff(v: Option<Json>)
    ensures SourcesOk(v) <==>
            && KeysOf(v) == {"Acton.toml", "package-lock.json", "contracts/TonNativeEscrow.tolk", "contracts/types.tolk"}
            && IsDigest(TextOf(FieldOf(v, "Acton.toml"))) && IsDigest(TextOf(FieldOf(v, "package-lock.json")))
            && IsDigest(TextOf(FieldOf(v, "contracts/TonNativeEscrow.tolk"))) && IsDigest(TextOf(FieldOf(v, "contracts/types.tolk")))
  {
  }

  lemma FullCandidateReadIff(v: Json, c: Candidate)
    ensures ParseFullCandidate(v) == Ok(c) <==> CompleteCandidate(Some(v), c.sourceRevision, c.codeHash, c.required)
  {
    if ParseFullCandidate(v).Ok? {
      CandidateStagesAgree(v);
    }
    CandidateReadIff(v, c);
    NumeralIff(FieldOf(Some(v), "minOperationalReserveNano"));
    PartsReadIff(FieldOf(Some(v), "toolchains"));
    PartsReadIff(FieldOf(Some(v), "artifacts"));
    SourcesReadIff(FieldOf(Some(v), "sources"));
    assert (c.required as real).Floor == c.required;
  }

  /** The approval file states the evidence. */
  ghost predicate ApprovalSays(a: Option<Json>, e: Evidence) {
    a.Some? && a.value.JObject? && HasMembers(a.value.fields, e)
  }

  /** The deployment record expects the evidence, on network `n`. */
  ghost predicate RecordSays(r: Option<Json>, n: Network, e: Evidence) {
    r.Some? && r.value.JObject? && HasExpectations(r.value.fields, Expecting(n, e))
  }

  function Expecting(n: Network, e: Evidence): Record {
    Record(n, e.candidateSha256, e.sourceRevision, e.codeHash, e.policyId, e.threshold, e.verifiedSigners)
  }

  /** The five files allow a deployment with evidence `e` on network `n`. */
  ghost predicate Allows(e: Evidence, n: Network, candidate: Bytes, approval: Bytes, policy: Bytes, signatures: Bytes, record: Bytes, p: Platform) {
    && Approves(e, candidate, policy, signatures, p)
    && CompleteCandidate(p.parseJson(candidate), e.sourceRevision, e.codeHash, e.threshold)
    && ApprovalSays(p.parseJson(approval), e)
    && RecordSays(p.parseJson(record), n, e)
    && (if n == Mainnet then "ton-mainnet-" else "ton-testnet-") <= e.policyId
  }

  lemma ApprovalRead(v: Json)
    requires ParseApproval(v).Ok?
    ensures v.JObject? && HasMembers(v.fields, ParseApproval(v).value)
  {
    SignerListIff(Member(v.fields, "verifiedSigners"));
  }

  lemma RecordRead(v: Json)
    requires ParseDeploymentRecord(v).Ok?
    ensures v.JObject? && HasExpectations(v.fields, ParseDeploymentRecord(v).value)
  {
    SignerListIff(Member(v.fields, "expectedVerifiedSigners"));
  }

  lemma AuthorizedIsAllowed(candidate: Bytes, approval: Bytes, policy: Bytes, signatures: Bytes, record: Bytes, p: Platform,
                            c: Candidate, e: Evidence, d: Record)
    requires ReadJson(candidate, ParseFullCandidate, p) == Ok(c) && ReadJson(approval, ParseApproval, p) == Ok(e)
    requires ReadJson(record, ParseDeploymentRecord, p) == Ok(d) && RecordBinds(d, e)
    requires Approves(e, candidate, policy, signatures, p)
    ensures Allows(e, d.targetNetwork, candidate, approval, policy, signatures, record, p)
  {
    CandidateStagesAgree(p.parseJson(candidate).value);
    CandidateReadIff(p.parseJson(candidate).value, c);
    FullCandidateReadIff(p.parseJson(candidate).value, c);
    assert (c.required as real).Floor == c.required && (e.threshold as real).Floor == e.threshold;
    ApprovalRead(p.parseJson(approval).value);
    RecordRead(p.parseJson(record).value);
    assert d == Expecting(d.targetNetwork, e);
  }

  lemma AllowedIsAuthorized(candidate: Bytes, approval: Bytes, policy: Bytes, signatures: Bytes, record: Bytes, p: Platform,
                            e: Evidence, n: Network)
    requires Allows(e, n, candidate, approval, policy, signatures, record, p)
    ensures ReadJson(candidate, ParseFullCandidate, p) == Ok(Candidate(e.sourceRevision, e.codeHash, e.threshold))
    ensures ReadJson(approval, ParseApproval, p) == Ok(e)
    ensures ReadJson(record, ParseDeploymentRecord, p) == Ok(Expecting(n, e)) && RecordBinds(Expecting(n, e), e)
    ensures ReadInputs(candidate, policy, signatures, p).Ok? && Yields(ReadInputs(candidate, policy, signatures, p).value, e, p)
  {
    FullCandidateReadIff(p.parseJson(candidate).value, Candidate(e.sourceRevision, e.codeHash, e.threshold));
    var i := ApprovedIsYielded(candidate, policy, signatures, p, e);
    ParsedInputsOk(candidate, policy, signatures, p);
    EvidenceFields(i, p, e);
    ShapesIff(e.candidateSha256);
    EvidenceParses(p.parseJson(approval).value.fields, e);
    ValidRecordParses(p.parseJson(record).value.fields, Expecting(n, e));
  }

  /** As its parsers read them, the files belong together. */
  ghost predicate FilesBind(candidate: Bytes, approval: Bytes, policy: Bytes, signatures: Bytes, record: Bytes, p: Platform) {
    && ReadJson(candidate, ParseFullCandidate, p).Ok?
    && ReadJson(approval, ParseApproval, p).Ok?
    && ReadJson(record, ParseDeploymentRecord, p).Ok?
    && RecordBinds(ReadJson(record, ParseDeploymentRecord, p).value, ReadJson(approval, ParseApproval, p).value)
    && ReadInputs(candidate, policy, signatures, p).Ok?
    && Yields(ReadInputs(candidate, policy, signatures, p).value, ReadJson(approval, ParseApproval, p).value, p)
  }

  lemma BoundFilesAllow(candidate: Bytes, approval: Bytes, policy: Bytes, signatures: Bytes, record: Bytes, p: Platform)
    requires FilesBind(candidate, approval, policy, signatures, record, p)
    ensures var e, n := ReadJson(approval, ParseApproval, p).value, ReadJson(record, ParseDeploymentRecord, p).value.targetNetwork;
            && Allows(e, n, candidate, approval, policy, signatures, record, p)
            && AllSigned(e.verifiedSigners, e.policyId, candidate, policy, signatures, p)
            && !HasUnsignedEntry(candidate, policy, signatures, p)
  {
    var c, e, d := ReadJson(candidate, ParseFullCandidate, p), ReadJson(approval, ParseApproval, p), ReadJson(record, ParseDeploymentRecord, p);
    YieldedIsApproved(candidate, policy, signatures, p, ReadInputs(candidate, policy, signatures, p).value, e.value);
    AuthorizedIsAllowed(candidate, approval, policy, signatures, record, p, c.value, e.value, d.value);
    ApprovedAreSigned(candidate, policy, signatures, p, e.value);
    ApprovedHasNoUnsigned(candidate, policy, signatures, p, e.value);
  }

  lemma OnlyBoundFilesAllow(candidate: Bytes, approval: Bytes, policy: Bytes, signatures: Bytes, record: Bytes, p: Platform)
    requires !FilesBind(candidate, approval, policy, signatures, record, p)
    ensures forall e, n :: !Allows(e, n, candidate, approval, policy, signatures, record, p)
  {
    forall e, n
      ensures !Allows(e, n, candidate, approval, policy, signatures, record, p)
    {
      if Allows(e, n, candidate, approval, policy, signatures, record, p) {
        AllowedIsAuthorized(candidate, approval, policy, signatures, record, p, e, n);
      }
    }
  }

  /** `authorizeDeployment`, once its files are read: the comparisons and the verification over the same
      candidate bytes. */
  method AuthorizeRead(candidate: Bytes, approval: Bytes, policy: Bytes, signatures: Bytes, record: Bytes, p: Platform)
    returns (v: Result<Authorization>)
    ensures v.Ok? <==> FilesBind(candidate, approval, policy, signatures, record, p)
    ensures v.Ok? ==>
              var e := ReadJson(approval, ParseApproval, p).value;
              v.value == Authorization(ReadJson(record, ParseDeploymentRecord, p).value.targetNetwork, e.candidateSha256, p.sha256(record),
                                       e.sourceRevision, e.codeHash, e.policyId, e.threshold, e.verifiedSigners)
  {
    var c := ReadJson(candidate, ParseFullCandidate, p);
    var e := ReadJson(approval, ParseApproval, p);
    var d := ReadJson(record, ParseDeploymentRecord, p);
    if c.Err? || e.Err? || d.Err? {
      return Err("invalid input");
    }
    var inputs := ReadInputs(candidate, policy, signatures, p);
    if inputs.Ok? {
      SameCandidate(candidate, policy, signatures, p);
    }
    v := Authorize(c.value, e.value, d.value, inputs, p.sha256(candidate), p.sha256(record), p);
  }

  function EvidenceIn(a: Authorization): Evidence {
    Evidence(a.policyId, a.candidateSha256, a.sourceRevision, a.codeHash, a.approvalThreshold, a.verifiedSigners)
  }

  /** `authorizeDeployment`, from the bytes of its files. It succeeds exactly when the candidate is
      complete, the provided evidence is what verifying the same candidate bytes yields, and the
      deployment record expects precisely that evidence; and it says what they say. */
  method AuthorizeDeployment(candidate: Bytes, approval: Bytes, policy: Bytes, signatures: Bytes, record: Bytes, p: Platform)
    returns (v: Result<Authorization>)
    ensures v.Ok? ==> Allows(EvidenceIn(v.value), v.value.targetNetwork, candidate, approval, policy, signatures, record, p)
    ensures v.Ok? ==> v.value.deploymentRecordSha256 == p.sha256(record)
    ensures v.Err? ==> forall e, n :: !Allows(e, n, candidate, approval, policy, signatures, record, p)
    // Every signer it names has signed this policy and these candidate bytes, and so has every entry of the
    // bundle: one entry that does not verify under its signer's key is enough for a refusal.
    ensures v.Ok? ==> AllSigned(v.value.verifiedSigners, v.value.policyId, candidate, policy, signatures, p)
    ensures HasUnsignedEntry(candidate, policy, signatures, p) ==> v.Err?
  {
    v := AuthorizeRead(candidate, approval, policy, signatures, record, p);
    if v.Ok? {
      BoundFilesAllow(candidate, approval, policy, signatures, record, p);
    } else {
      OnlyBoundFilesAllow(candidate, approval, policy, signatures, record, p);
    }
  }

  /** One approval can be used on one network only. */
  lemma OneNetwork(d: Record, d': Record, e: Evidence)
    requires RecordBinds(d, e) && RecordBinds(d', e)
    ensures d == d'
  {
    assert NetworkPrefix(Mainnet)[4] != NetworkPrefix(Testnet)[4];
    assert e.policyId[4] == NetworkPrefix(d.targetNetwork)[4] == NetworkPrefix(d'.targetNetwork)[4];
  }
}
