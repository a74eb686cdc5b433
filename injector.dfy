/**
 The pod admission mutator. For a pod in a namespace with exactly one custom
 limit range it checks every bandwidth annotation the pod already carries
 against the policy's min and max (never clamping it) and fills a missing
 annotation from the policy's default. Ingress is handled before egress, and
 the pod's annotation map is written in place.

 `ConfigAnnotationSpec` says, as a pure function, what the resolver leaves in
 the caller's map and how it ends; `PodAnnotator.ConfigAnnotation` is the
 step-by-step procedure, proved to agree with it.
 */
module Injector {
  import opened Common
  import opened Quantity
  import opened Types
  import Webhook

  /** What listing the custom limit ranges of a namespace yields. */
  datatype LookupResult =
    | NotFound                              // the API reports the resource as not found
    | LookupFailed                          // any other listing error
    | Listed(items: seq<CustomLimitRange>)

  /** How the resolver ends: a nil error, a returned error, or a panic in `MustParse`. */
  datatype Status = Success | Failed(error: Error) | Panicked

  /** The annotation map the caller holds afterwards, and how the resolver ended. */
  datatype Outcome = Outcome(entries: map<string, string>, status: Status)

  /** What the mutating webhook answers for a pod. */
  datatype Response =
    | Allowed(reason: string)
    | Errored(code: int, error: Error)
    | Patched(annotations: map<string, string>, namespace: string)
    | Aborted                               // the handler panicked; no answer is produced

  const StatusInternalServerError: int := 500

  // ---------------------------------------------------------------------------
  // Reference definitions

  /** A requested value is acceptable when it respects each policy bound that is set. */
  predicate WithinPolicy(v: Quantity, min: Quantity, max: Quantity) {
    (IsZero(min) || min <= v) && (IsZero(max) || v <= max)
  }

  /** The check one direction's annotation undergoes; an absent annotation passes. */
  function CheckAnnotation(an: map<string, string>, key: string, min: Quantity, max: Quantity): Status {
    if key !in an then Success
    else match Parse(an[key])
      case None => Panicked
      case Some(v) => if WithinPolicy(v, min, max) then Success else Failed(ErrInvalidPodSettingBandwidthMaxMin)
  }

  /** The map with `key` filled from a set default when the pod has no value for it. */
  function WithDefault(an: map<string, string>, key: string, def: Quantity): map<string, string> {
    if key !in an && !IsZero(def) then an[key := Render(def)] else an
  }

  // ---------------------------------------------------------------------------
  // The resolver as the Go code performs it

  /** One direction: check a present value against min/max, or fill an absent one from the default. */
  function ApplyDirection(an: map<string, string>, key: string, min: Quantity, def: Quantity, max: Quantity): (o: Outcome)
    ensures forall k :: k in an ==> k in o.entries && o.entries[k] == an[k]
    ensures forall k :: k in o.entries ==> k in an || k == key
    ensures o.status == CheckAnnotation(an, key, min, max)
    ensures key !in an ==> (key in o.entries <==> !IsZero(def))
    ensures key !in an && !IsZero(def) ==> Parse(o.entries[key]) == Some(def)
  {
    if key in an then
      match Parse(an[key])
      case None => Outcome(an, Panicked)
      case Some(v) =>
        if (!IsZero(max) && v > max) || (!IsZero(min) && v < min)
        then Outcome(an, Failed(ErrInvalidPodSettingBandwidthMaxMin))
        else Outcome(an, Success)
    else if !IsZero(def) then
      Outcome(an[key := Render(def)], Success)
    else
      Outcome(an, Success)
  }

  /**
   The single policy applied: ingress first, and egress only when ingress
   succeeded. In closed form: egress is checked against the pod's own egress
   value (the ingress step never touches it), an ingress failure stops before
   anything is written, and an egress failure keeps the ingress default
   already written.
   */
  function ResolveWith(lr: LimitRange, an: map<string, string>): (o: Outcome)
    ensures var ci := CheckAnnotation(an, IngressBandwidthKey, lr.min.ingress, lr.max.ingress);
            var ce := CheckAnnotation(an, EgressBandwidthKey, lr.min.egress, lr.max.egress);
            var filled := WithDefault(an, IngressBandwidthKey, lr.default.ingress);
            o == if ci != Success then Outcome(an, ci)
                 else if ce != Success then Outcome(filled, ce)
                 else Outcome(WithDefault(filled, EgressBandwidthKey, lr.default.egress), Success)
  {
    var afterIngress := ApplyDirection(an, IngressBandwidthKey, lr.min.ingress, lr.default.ingress, lr.max.ingress);
    if afterIngress.status != Success then afterIngress
    else ApplyDirection(afterIngress.entries, EgressBandwidthKey, lr.min.egress, lr.default.egress, lr.max.egress)
  }

  /**
   What the caller's map holds, and how the resolver ends, for a namespace
   lookup result. Whatever the outcome, every entry the pod had keeps its
   value, only the two bandwidth keys can appear, and the only errors are a
   failed lookup, too many policies, or a value outside the policy.
   */
  function ConfigAnnotationSpec(lookup: LookupResult, an: map<string, string>): (o: Outcome)
    ensures forall k :: k in an ==> k in o.entries && o.entries[k] == an[k]
    ensures forall k :: k in o.entries ==> k in an || k == IngressBandwidthKey || k == EgressBandwidthKey
    ensures o.status.Failed? ==>
              o.status.error in {ErrMissingConfiguration, ErrInvalidCustomLimitRangeCountMoreThanOne,
                                 ErrInvalidPodSettingBandwidthMaxMin}
    ensures o.status == Failed(ErrMissingConfiguration) <==> lookup.LookupFailed?
  {
    match lookup
    case NotFound => Outcome(an, Success)
    case LookupFailed => Outcome(an, Failed(ErrMissingConfiguration))
    case Listed(items) =>
      if |items| > 1 then Outcome(an, Failed(ErrInvalidCustomLimitRangeCountMoreThanOne))
      else if |items| == 0 then Outcome(an, Success)
      else ResolveWith(items[0].spec.lRange, an)
  }

  /** The namespace a request is resolved in: an empty one means "default". */
  function EffectiveNamespace(ns: string): (r: string)
    ensures r != ""
    ensures ns != "" ==> r == ns
    ensures ns == "" ==> r == DefaultNamespace
  {
    if ns == "" then DefaultNamespace else ns
  }

  /** The pod asks to be left alone by the policy. */
  predicate OptedOut(an: map<string, string>): (r: bool)
    ensures r ==> "customlimitrange.kubernetes.io/limited" in an
    ensures r <==> "customlimitrange.kubernetes.io/limited" in an && an["customlimitrange.kubernetes.io/limited"] == "disable"
  {
    WebhookPodDisable in an && an[WebhookPodDisable] == PodDisableValue
  }

  // ---------------------------------------------------------------------------
  // Properties of the resolver

  /** More than one policy is an error whatever the annotations, and the map is not touched. */
  lemma MoreThanOnePolicyFails(items: seq<CustomLimitRange>, an: map<string, string>)
    requires |items| > 1
    ensures ConfigAnnotationSpec(Listed(items), an) == Outcome(an, Failed(ErrInvalidCustomLimitRangeCountMoreThanOne))
  {
  }

  /** No policy (not found, or an empty list) leaves the map unchanged; a failed lookup is reported. */
  lemma NoPolicyNoChange(an: map<string, string>)
    ensures ConfigAnnotationSpec(NotFound, an) == Outcome(an, Success)
    ensures ConfigAnnotationSpec(Listed([]), an) == Outcome(an, Success)
    ensures ConfigAnnotationSpec(LookupFailed, an) == Outcome(an, Failed(ErrMissingConfiguration))
  {
  }

  /**
   A present annotation is rejected exactly when it breaks a set bound of the
   policy; key presence, not a non-zero value, selects this path.
   */
  lemma PresentIngressChecked(lr: LimitRange, an: map<string, string>, v: Quantity)
    requires IngressBandwidthKey in an && Parse(an[IngressBandwidthKey]) == Some(v)
    ensures ResolveWith(lr, an).status == Failed(ErrInvalidPodSettingBandwidthMaxMin) <==>
              (!IsZero(lr.max.ingress) && v > lr.max.ingress) || (!IsZero(lr.min.ingress) && v < lr.min.ingress)
              || (WithinPolicy(v, lr.min.ingress, lr.max.ingress)
                  && CheckAnnotation(an, EgressBandwidthKey, lr.min.egress, lr.max.egress) == Failed(ErrInvalidPodSettingBandwidthMaxMin))
    ensures ResolveWith(lr, an).entries[IngressBandwidthKey] == an[IngressBandwidthKey]
  {
  }

  /** The same for egress, once ingress has passed. */
  lemma PresentEgressChecked(lr: LimitRange, an: map<string, string>, v: Quantity)
    requires EgressBandwidthKey in an && Parse(an[EgressBandwidthKey]) == Some(v)
    requires CheckAnnotation(an, IngressBandwidthKey, lr.min.ingress, lr.max.ingress) == Success
    ensures ResolveWith(lr, an).status == Failed(ErrInvalidPodSettingBandwidthMaxMin) <==>
              (!IsZero(lr.max.egress) && v > lr.max.egress) || (!IsZero(lr.min.egress) && v < lr.min.egress)
    ensures ResolveWith(lr, an).entries[EgressBandwidthKey] == an[EgressBandwidthKey]
  {
  }

  /** An absent annotation is added, carrying the default, exactly when the default is set. */
  lemma AbsentFilledFromDefault(lr: LimitRange, an: map<string, string>)
    requires ResolveWith(lr, an).status == Success
    ensures IngressBandwidthKey !in an ==>
              (IngressBandwidthKey in ResolveWith(lr, an).entries <==> !IsZero(lr.default.ingress))
    ensures IngressBandwidthKey !in an && !IsZero(lr.default.ingress) ==>
              ResolveWith(lr, an).entries[IngressBandwidthKey] == Render(lr.default.ingress)
    ensures EgressBandwidthKey !in an ==>
              (EgressBandwidthKey in ResolveWith(lr, an).entries <==> !IsZero(lr.default.egress))
    ensures EgressBandwidthKey !in an && !IsZero(lr.default.egress) ==>
              ResolveWith(lr, an).entries[EgressBandwidthKey] == Render(lr.default.egress)
  {
  }

  /**
   An egress rejection leaves the ingress default already written into the
   caller's map although the resolver fails.
   */
  lemma EgressRejectionKeepsIngressDefault(lr: LimitRange, an: map<string, string>, v: Quantity)
    requires IngressBandwidthKey !in an && !IsZero(lr.default.ingress)
    requires EgressBandwidthKey in an && Parse(an[EgressBandwidthKey]) == Some(v)
    requires !WithinPolicy(v, lr.min.egress, lr.max.egress)
    ensures ResolveWith(lr, an) ==
              Outcome(an[IngressBandwidthKey := Render(lr.default.ingress)], Failed(ErrInvalidPodSettingBandwidthMaxMin))
  {
  }

  /** A set default that respects the policy's own set bounds passes the check it is later put to. */
  lemma DefaultWithinPolicy(min: Quantity, def: Quantity, max: Quantity)
    requires Webhook.OrderedPair(min, def) && Webhook.OrderedPair(def, max)
    requires !IsZero(def)
    ensures WithinPolicy(def, min, max)
  {
  }

  /**
   Resolving twice changes nothing the first pass did not, provided the
   policy is ordered, as the validating webhook guarantees of stored policies.
   */
  lemma ResolveIdempotent(lr: LimitRange, an: map<string, string>)
    requires Webhook.Ordered(lr.min, lr.default, lr.max)
    requires ResolveWith(lr, an).status == Success
    ensures ResolveWith(lr, ResolveWith(lr, an).entries) == ResolveWith(lr, an)
  {
    var out := ResolveWith(lr, an).entries;
    assert Webhook.OrderedIn(lr.min, lr.default, lr.max, Ingress);
    assert Webhook.OrderedIn(lr.min, lr.default, lr.max, Egress);
    if IngressBandwidthKey !in an && !IsZero(lr.default.ingress) {
      DefaultWithinPolicy(lr.min.ingress, lr.default.ingress, lr.max.ingress);
    }
    if EgressBandwidthKey !in an && !IsZero(lr.default.egress) {
      DefaultWithinPolicy(lr.min.egress, lr.default.egress, lr.max.egress);
    }
    assert CheckAnnotation(out, IngressBandwidthKey, lr.min.ingress, lr.max.ingress) == Success;
    assert CheckAnnotation(out, EgressBandwidthKey, lr.min.egress, lr.max.egress) == Success;
    assert WithDefault(out, IngressBandwidthKey, lr.default.ingress) == out;
  }

  /**
   Without the ordering guarantee the second pass can reject what the first
   wrote: a default above the set maximum is filled in, then refused.
   */
  lemma UnorderedDefaultRejectedOnSecondPass(lr: LimitRange, an: map<string, string>)
    requires IngressBandwidthKey !in an
    requires Webhook.Exceeds(lr.default.ingress, lr.max.ingress)
    ensures ResolveWith(lr, an).status != Failed(ErrInvalidPodSettingBandwidthMaxMin)
              || CheckAnnotation(an, EgressBandwidthKey, lr.min.egress, lr.max.egress) != Success
    ensures ResolveWith(lr, ResolveWith(lr, an).entries).status == Failed(ErrInvalidPodSettingBandwidthMaxMin)
  {
    var out := ResolveWith(lr, an).entries;
    assert out[IngressBandwidthKey] == Render(lr.default.ingress);
  }

  // ---------------------------------------------------------------------------
  // Imperative state: the annotation map, the pod and the webhook handler

  /** A pod's annotation map; Go maps are references, so writes through it reach the caller. */
  class Annotations {
    var entries: map<string, string>

    constructor (entries: map<string, string>)
      ensures this.entries == entries
    {
      this.entries := entries;
    }
  }

  /** The parts of a decoded pod the handler reads and writes; `null` annotations stand for a nil map. */
  class Pod {
    var annotations: Annotations?
    var namespace: string

    constructor (annotations: Annotations?, namespace: string)
      ensures this.annotations == annotations && this.namespace == namespace
    {
      this.annotations := annotations;
      this.namespace := namespace;
    }
  }

  /** The admission request as far as the handler reads it. */
  datatype Request = Request(namespace: string)

  class PodAnnotator {
    /** The listing of custom limit ranges, namespace by namespace. */
    const client: string -> LookupResult

    constructor (client: string -> LookupResult)
      ensures this.client == client
    {
      this.client := client;
    }

    /**
     Looks up the namespace's policy and applies it to `an` in place. On
     success the same map is returned; on failure `null` is, though writes
     already made to `an` stay.
     */
    method ConfigAnnotation(an: Annotations, namespace: string) returns (ret: Annotations?, status: Status)
      modifies an
      ensures an.entries == ConfigAnnotationSpec(client(namespace), old(an.entries)).entries
      ensures status == ConfigAnnotationSpec(client(namespace), old(an.entries)).status
      ensures status == Success ==> ret == an
      ensures status != Success ==> ret == null
    {
      var lookup := client(namespace);
      if lookup.NotFound? {
        return an, Success;
      }
      if lookup.LookupFailed? {
        return null, Failed(ErrMissingConfiguration);
      }
      var items := lookup.items;
      if |items| > 1 {
        return null, Failed(ErrInvalidCustomLimitRangeCountMoreThanOne);
      } else if |items| <= 0 {
        return an, Success;
      }
      var lr := items[0].spec.lRange;

      if IngressBandwidthKey in an.entries {
        var ig := Parse(an.entries[IngressBandwidthKey]);
        if ig.None? {
          return null, Panicked;
        }
        if (!IsZero(lr.max.ingress) && ig.value > lr.max.ingress) || (!IsZero(lr.min.ingress) && ig.value < lr.min.ingress) {
          return null, Failed(ErrInvalidPodSettingBandwidthMaxMin);
        }
      } else {
        if !IsZero(lr.default.ingress) {
          an.entries := an.entries[IngressBandwidthKey := Render(lr.default.ingress)];
        }
      }

      if EgressBandwidthKey in an.entries {
        var eg := Parse(an.entries[EgressBandwidthKey]);
        if eg.None? {
          return null, Panicked;
        }
        if (!IsZero(lr.max.egress) && eg.value > lr.max.egress) || (!IsZero(lr.min.egress) && eg.value < lr.min.egress) {
          return null, Failed(ErrInvalidPodSettingBandwidthMaxMin);
        }
      } else {
        if !IsZero(lr.default.egress) {
          an.entries := an.entries[EgressBandwidthKey := Render(lr.default.egress)];
        }
      }

      return an, Success;
    }

    /**
     Handles one pod admission: a nil annotation map becomes an empty one, an
     empty namespace becomes "default", an opted-out pod is allowed untouched,
     and otherwise the resolver's result is patched onto the pod or its error
     returned.
     */
    method Handle(req: Request, pod: Pod) returns (resp: Response)
      modifies pod, pod.annotations
      ensures pod.annotations != null
      ensures old(pod.annotations) == null ==> fresh(pod.annotations)
      ensures old(pod.annotations) != null ==> pod.annotations == old(pod.annotations)
      ensures var before := if old(pod.annotations) == null then map[] else old(pod.annotations.entries);
              var ns := EffectiveNamespace(req.namespace);
              var o := ConfigAnnotationSpec(client(ns), before);
              if OptedOut(before) then
                resp.Allowed? && pod.annotations.entries == before && pod.namespace == old(pod.namespace)
              else
                && pod.annotations.entries == o.entries
                && resp == (match o.status
                            case Success => Patched(o.entries, ns)
                            case Failed(e) => Errored(StatusInternalServerError, e)
                            case Panicked => Aborted)
                && pod.namespace == (if o.status == Success then ns else old(pod.namespace))
    {
      if pod.annotations == null {
        pod.annotations := new Annotations(map[]);
      }

      var ns := req.namespace;
      if ns == "" {
        ns := DefaultNamespace;
      }

      if WebhookPodDisable in pod.annotations.entries && pod.annotations.entries[WebhookPodDisable] == PodDisableValue {
        return Allowed("Pod customlimitrange.kubernetes.io/limited setting Disable, Pass CustomLimitRange");
      }

      var an, status := ConfigAnnotation(pod.annotations, ns);
      match status {
        case Panicked =>
          return Aborted;
        case Failed(e) =>
          return Errored(StatusInternalServerError, e);
        case Success =>
      }

      pod.annotations := an;
      pod.namespace := ns;
      resp := Patched(pod.annotations.entries, pod.namespace);
    }
  }

  // ---------------------------------------------------------------------------
  // Worked scenarios

  /** The policy of the scenarios: min 1G/1k, default 1T/1M, max 1P/10M (ingress/egress). */
  const ScenarioPolicy: LimitRange :=
    LimitRange("", CustomItems(1_000_000_000_000_000, 10_000_000),
                   CustomItems(1_000_000_000, 1000),
                   CustomItems(1_000_000_000_000, 1_000_000))

  /** No annotations: both defaults are filled in. */
  lemma ScenarioFillsDefaults()
    ensures ResolveWith(ScenarioPolicy, map[]) ==
              Outcome(map[IngressBandwidthKey := "1T", EgressBandwidthKey := "1M"], Success)
  {
    assert Render(1_000_000_000_000) == "1T";
    assert Render(1_000_000) == "1M";
  }

  /** An ingress request of 500M, below the 1G minimum, is refused and nothing is written. */
  lemma ScenarioBelowMinimumRejected()
    ensures ResolveWith(ScenarioPolicy, map[IngressBandwidthKey := "500M"]) ==
              Outcome(map[IngressBandwidthKey := "500M"], Failed(ErrInvalidPodSettingBandwidthMaxMin))
  {
    assert Parse("500M") == Some(500_000_000) by {
      assert "500M"[..3] == "500";
      assert DigitsValue("500") == 500 by {
        assert "500"[..2] == "50";
        assert "50"[..1] == "5";
        assert "5"[..0] == "";
      }
    }
  }

  /** An egress request of 5M within [1k, 10M] is kept as written, and ingress gets its 1T default. */
  lemma ScenarioPresentValueKept()
    ensures ResolveWith(ScenarioPolicy, map[EgressBandwidthKey := "5M"]) ==
              Outcome(map[EgressBandwidthKey := "5M", IngressBandwidthKey := "1T"], Success)
  {
    assert Render(1_000_000_000_000) == "1T";
    assert Parse("5M") == Some(5_000_000) by {
      assert "5M"[..1] == "5";
      assert "5"[..0] == "";
    }
    var an := map[EgressBandwidthKey := "5M"];
    assert an[IngressBandwidthKey := "1T"] == map[EgressBandwidthKey := "5M", IngressBandwidthKey := "1T"];
  }
}
