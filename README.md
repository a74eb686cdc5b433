# Custom limit range: bandwidth policy validation and pod annotation

A Dafny model of the decision logic of the custom-limit-range admission webhooks.

- **Validating webhook** (`Webhook`). It checks a `CustomLimitRange`'s `LimitRange` of three tiers: min, default and max. Each tier has an ingress and an egress bandwidth. Every set value must lie in [1k, 1P]. Within each direction, min ≤ default, min ≤ max and default ≤ max must hold wherever both operands are set. The bound checks of all three tiers run before any ordering check, and the first violation is reported. Create and update are admitted exactly when the validator passes. Delete is always admitted.
- **Mutating pod webhook** (`Injector`). The policy lookup for a namespace can fail, find nothing, find one policy, or find several. With exactly one policy, the pod's `kubernetes.io/ingress-bandwidth` and `kubernetes.io/egress-bandwidth` annotations are handled in that order. A present value is checked against the policy's set min and max and is never clamped. An absent value is filled from the policy's default when that default is set. The annotation map is written in place (`Annotations` is a class, since a Go map is a reference). `ConfigAnnotationSpec` is the pure specification, and `PodAnnotator.ConfigAnnotation` is the step-by-step method proved against it. `PodAnnotator.Handle` adds the prelude: a nil map becomes an empty one, an empty namespace becomes `default`, and the `customlimitrange.kubernetes.io/limited: disable` opt-out is honoured.
- **Quantities** (`Quantity`). A `resource.Quantity` is a natural number of bits per second, and zero means "unset". Annotation strings use decimal-SI notation: digits plus an optional k/M/G/T/P/E suffix. `Render` gives the canonical form and `Parse` reads it back; `Render`'s contract proves `Parse(Render(q)) == Some(q)`.

Modules: `Common` (errors, annotation keys), `Quantity`, `Types` (the resource's data shapes), `Webhook`, `Injector`.

## Model

| member | source | states |
|---|---|---|
| `Webhook.ValidateBandwidthIsReasonable` | pkg/webhook/customlimitrange_webhook.go:145-153 | Passes iff 1000 ≤ q ≤ 10^15, with both bounds inclusive; otherwise fails with ErrInvalidBandwidthRange |
| `Webhook.BandwidthValidate` | pkg/webhook/customlimitrange_webhook.go:130-143 | Passes iff every set direction of the tier is within the absolute bounds; the only possible error is ErrInvalidBandwidthRange |
| `Webhook.BandwidthValidateIsReasonable` | pkg/webhook/customlimitrange_webhook.go:93-128 | Passes iff all set values are in bounds and every direction is ordered (checked only where both operands are set). ErrInvalidBandwidthRange iff some bound is broken. ErrInvalidBandwidthMaxMin iff the bounds hold but an ordering fails. No other result is possible |
| `Webhook.ValidateCreate` | pkg/webhook/customlimitrange_webhook.go:52-67 | Admitted iff the limit range is well formed; otherwise Invalid, naming the object and carrying the validator's error |
| `Webhook.ValidateUpdate` | pkg/webhook/customlimitrange_webhook.go:70-85 | Same verdict as create, judged on the new object alone |
| `Webhook.ValidateDelete` | pkg/webhook/customlimitrange_webhook.go:88-91 | Always admitted |
| `Webhook.FullyUnsetAccepted` | pkg/webhook/customlimitrange_webhook.go:93-128 | A limit range with all six values unset is accepted |
| `Webhook.UnsetItemPasses` | pkg/webhook/customlimitrange_webhook.go:130-143 | A tier with both directions unset passes its bound check |
| `Webhook.RangeErrorTakesPrecedence` | pkg/webhook/customlimitrange_webhook.go:94-104 | A range that breaks both a bound and an ordering reports ErrInvalidBandwidthRange |
| `Webhook.DirectionsIndependent` | pkg/webhook/customlimitrange_webhook.go:106-125 | Ingress values never meet egress values: ranges with equal egress values get the same verdict when each range's ingress values are in bounds and ordered |
| `Webhook.BoundCheckCases` | pkg/webhook/customlimtrange_webhook_test.go:28-101 | 124, 0.1k, 1.1P and 1001T are rejected and 1124, 1k and 1P accepted; tiers 1P/1P, 1k/1P and 2k pass, while 0.1k/1P, 0.1k/1.01P, 2k/1.01P and 2P are range errors |
| `Webhook.OrderingCases` | pkg/webhook/customlimtrange_webhook_test.go:115-191 | A lone min, values in different directions, and equal min and default pass; min above default fails in either direction, as does egress min above max and min 1M above default 1k; an egress min and max beside an ingress default pass, while adding an ingress min above that default fails; a 2P min is a range error |
| `Webhook.PopulatedRangeAdmitted` | pkg/webhook/customlimtrange_webhook_test.go:221-254 | The fully populated range (min 1G/1k, default 1T/1M, max 1P/10M) is admitted on create, update and delete |
| `Quantity.Parse` | pkg/injector/customlimitrange_injector.go:119-119 | The annotation string reads as a quantity iff it is digits with at most one k/M/G/T/P/E suffix; plain digits read as their decimal value |
| `Quantity.Render` | pkg/injector/customlimitrange_injector.go:126-126 | The default written into an annotation is a decimal-SI string that reads back as the same quantity |
| `Injector.ApplyDirection` | pkg/injector/customlimitrange_injector.go:117-128 | One direction: existing entries keep their values, and only this direction's key can be added. The status is the check of a present value against the set min/max. An absent key is added iff the default is set, and it then reads back as the default |
| `Injector.ResolveWith` | pkg/injector/customlimitrange_injector.go:117-140 | The single-policy branch in closed form. An ingress check failure returns the map untouched with that status. Otherwise an egress failure returns the map with the ingress default filled. Otherwise both defaults are filled and the status is success. The egress check sees the pod's own egress value |
| `Injector.ConfigAnnotationSpec` | pkg/injector/customlimitrange_injector.go:97-145 | For every lookup outcome, each original entry keeps its value and only the two bandwidth keys can appear. The only errors are ErrMissingConfiguration, which comes exactly from a failed lookup, too many policies, and a value outside the policy |
| `Injector.OptedOut` | pkg/injector/customlimitrange_injector.go:66-66 | A pod opts out iff its annotations map `customlimitrange.kubernetes.io/limited` to exactly `disable` |
| `Injector.EffectiveNamespace` | pkg/injector/customlimitrange_injector.go:59-64 | The resolved namespace is never empty: a given namespace is kept, and an empty one becomes "default" |
| `Injector.MoreThanOnePolicyFails` | pkg/injector/customlimitrange_injector.go:108-110 | More than one policy gives ErrInvalidCustomLimitRangeCountMoreThanOne whatever the annotations, and the map is untouched |
| `Injector.NoPolicyNoChange` | pkg/injector/customlimitrange_injector.go:99-114 | A not-found lookup or an empty list returns the map unchanged with no error; any other lookup failure gives ErrMissingConfiguration |
| `Injector.PresentIngressChecked` | pkg/injector/customlimitrange_injector.go:117-123 | A present ingress value v leads to ErrInvalidPodSettingBandwidthMaxMin iff (max set and v > max) or (min set and v < min), or else the egress check fails. The ingress value is left as written |
| `Injector.PresentEgressChecked` | pkg/injector/customlimitrange_injector.go:129-135 | Once ingress has passed, a present egress value is rejected iff it breaks a set bound, and it is left as written |
| `Injector.AbsentFilledFromDefault` | pkg/injector/customlimitrange_injector.go:124-140 | On success, an absent bandwidth key is present afterwards iff the policy default is set, and then it holds the rendered default |
| `Injector.EgressRejectionKeepsIngressDefault` | pkg/injector/customlimitrange_injector.go:124-135 | An egress rejection after an ingress default was filled leaves that default in the caller's map, although an error is returned |
| `Injector.ResolveIdempotent` | pkg/injector/customlimitrange_injector.go:117-140 | For a policy that passes the ordering checks, re-resolving a successfully resolved map changes nothing |
| `Injector.UnorderedDefaultRejectedOnSecondPass` | pkg/injector/customlimitrange_injector.go:117-128 | For a policy whose ingress default exceeds its set max, the filled default is refused on a second pass, so the validator's ordering check is what idempotence depends on |
| `Injector.ScenarioFillsDefaults` | pkg/injector/customlimitrange_injector.go:124-140 | With the populated policy, a pod with no annotations gets ingress "1T" and egress "1M" |
| `Injector.ScenarioBelowMinimumRejected` | pkg/injector/customlimitrange_injector.go:117-123 | With the populated policy, ingress "500M" (below 1G) is refused and nothing is written |
| `Injector.ScenarioPresentValueKept` | pkg/injector/customlimitrange_injector.go:117-140 | With the populated policy, egress "5M" is kept as written and ingress is filled with "1T" |
| `Injector.PodAnnotator.constructor` | pkg/injector/customlimitrange_injector.go:41-43 | The annotator holds the given policy lookup |
| `Injector.PodAnnotator.ConfigAnnotation` | pkg/injector/customlimitrange_injector.go:97-145 | The caller's map afterwards and the status both equal ConfigAnnotationSpec of the lookup for the namespace. The same map is returned on success, and null on failure |
| `Injector.PodAnnotator.Handle` | pkg/injector/customlimitrange_injector.go:55-85 | Afterwards the annotations are non-null (a fresh empty map if they were nil). An opted-out pod is allowed with nothing changed. Otherwise the map holds the resolver's result for the defaulted namespace. The response is a patch carrying the map and namespace, a 500 error with the resolver's error, or an abort on a parse panic |

## Left out

- Decoding the admission request, JSON marshalling and building the patch response are not modelled. Handle's `Patched` response carries the annotations and namespace that would be marshalled.
- Listing policies through the API server is a network call. It is modelled as the annotator's `client` function from namespace to a lookup result (`NotFound`, `LookupFailed`, or a list).
- Logging, scheme registration, `SetupWebhookWithManager`, the no-op `Default`, `DeepCopy`, `GroupVersion` and object metadata other than the name are not modelled.
- Quantity.Parse: decimal fractions ("0.1k", "1.5G"), binary suffixes ("10Mi"), exponent notation ("1e6"), the milli suffix, signs ("+5k", "-5k") and `Value()` rounding are not modelled. Such strings read as malformed. As a consequence, an annotation the program parses and compares against the policy's min and max ends in the model as `Panicked` (and `Aborted` in `Handle`) instead of being accepted or rejected by value. Quantities are unbounded naturals, so int64 limits and negative quantities are outside the model.
- Quantity.Render: it yields the canonical decimal-SI form (digits with trailing 000 groups folded into the suffix, up to E). Other canonicalisations of `String()` are not modelled.
- `MustParse` panicking on a malformed annotation is modelled as the `Panicked` status and the `Aborted` response. What the serving framework does with a panicking handler is not modelled.
- ValidateCreate: the Kubernetes `Invalid` status error is reduced to the object's name and the validator's error. The field path and message text are not modelled.
- The `Type` string of a limit range is carried but never consulted, as in the program.
