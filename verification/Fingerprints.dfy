// What an approval's hash covers (approvals.py:70-78): equal canonical texts come
// from equal payloads.

module Fingerprints {
  import opened Domain
  import opened Redaction
  import opened Codec
  import opened Approvals

  function PayloadJson(p: Payload): Json {
    JObject(map[
      "configuration_digest" := JString(p.configurationDigest),
      "route" := JObject(Named(RouteFields(p.route))),
      "work_item" := JObject(Named(ItemFields(p.item)))])
  }

  /** The platform that takes nothing for a secret. */
  function Clear(pf: Platform): Platform {
    pf.(secretKey := (k: string) => false, secretText := (t: string) => false)
  }

  lemma {:induction false} ClearTexts(pf: Platform, ts: seq<string>)
    ensures RedactTexts(Clear(pf), ts) == ts
  {
  }

  lemma {:induction false} ClearItem(pf: Platform, w: WorkItem)
    ensures RedactItem(Clear(pf), w) == w
  {
    ClearTexts(pf, w.dependencies);
    ClearTexts(pf, w.affectedPaths);
    ClearTexts(pf, w.verification);
    assert (set f | f in w.riskFlags :: RedactText(Clear(pf), f)) == w.riskFlags;
    hide RedactTexts;
  }

  lemma {:induction false} ClearRoute(pf: Platform, r: RouteDecision)
    ensures RedactRoute(Clear(pf), r) == r
  {
  }

  lemma {:induction false} ItemsDiffer(pf: Platform, v: WorkItem, w: WorkItem)
    requires Named(ItemFields(v)) == Named(ItemFields(w))
    ensures v == w
  {
    hide *;
    ClearNames(pf);
    ItemLoads(Clear(pf), v);
    ItemLoads(Clear(pf), w);
    ClearItem(pf, v);
    ClearItem(pf, w);
  }

  lemma {:induction false} RoutesDiffer(pf: Platform, q: RouteDecision, r: RouteDecision)
    requires Named(RouteFields(q)) == Named(RouteFields(r))
    ensures q == r
  {
    hide *;
    ClearNames(pf);
    RouteLoads(Clear(pf), q);
    RouteLoads(Clear(pf), r);
    ClearRoute(pf, q);
    ClearRoute(pf, r);
  }

  lemma {:induction false} ClearNames(pf: Platform)
    ensures CleanNames(Clear(pf))
  {
  }

  /** Different payloads have different JSON values. */
  lemma {:induction false} PayloadsDiffer(pf: Platform, p: Payload, q: Payload)
    requires PayloadJson(p) == PayloadJson(q)
    ensures p == q
  {
    hide Named, RouteFields, ItemFields;
    var a, b := PayloadJson(p).fields, PayloadJson(q).fields;
    assert a["route"] == b["route"] && a["work_item"] == b["work_item"] && a["configuration_digest"] == b["configuration_digest"];
    DistinctKeys();
    RoutesDiffer(pf, p.route, q.route);
    ItemsDiffer(pf, p.item, q.item);
  }

  lemma {:induction false} DistinctKeys()
    ensures "configuration_digest" != "route" && "route" != "work_item" && "configuration_digest" != "work_item"
  {
    assert |"configuration_digest"| == 20 && |"route"| == 5 && |"work_item"| == 9;
  }

  /** If the printed JSON can be parsed again and the hash has no collisions, the
      fingerprint of a payload determines the payload. */
  lemma {:induction false} FingerprintsInjective(pf: Platform, dumps: Json -> string, loads: string -> Option<Json>,
                                                 hash: string -> string)
    requires forall p :: pf.fingerprint(p) == hash(dumps(PayloadJson(p)))
    requires forall v :: loads(dumps(v)) == Some(v)
    requires forall a, b | hash(a) == hash(b) :: a == b
    ensures Injective(pf)
  {
    hide PayloadJson;
    forall p, q: Payload | pf.fingerprint(p) == pf.fingerprint(q) ensures p == q {
      assert dumps(PayloadJson(p)) == dumps(PayloadJson(q));
      assert loads(dumps(PayloadJson(p))) == Some(PayloadJson(p));
      assert loads(dumps(PayloadJson(q))) == Some(PayloadJson(q));
      PayloadsDiffer(pf, p, q);
    }
  }
}
