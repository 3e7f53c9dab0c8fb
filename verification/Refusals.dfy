/** What a refused request leaves on the configuration it was given (bin/orckerd/src/mutate.rs:88-962). */
module Refusals {
  import opened Text
  import opened Config
  import Domains
  import opened Router
  import opened Mutate
  import opened Frames

  lemma TouchIsIdleIff(s: DomainsSection, t: DomainTarget)
    ensures TouchDelta(s, t) == s <==> HasEntry(s, t)
  {
    assert HasEntry(TouchDelta(s, t), t);
  }

  /** A removal that gets as far as making an entry the claimant did not have. */
  predicate TouchesNewEntry(c: Cfg, r: Routes, req: Request) {
    && req.RemoveDomain? && req.domain.Some?
    && var t := ResolveTarget(c, r, ToAsciiLower(req.name)); t.Some? && !HasEntry(c.domains, t.value)
  }

  lemma RefusedDomainRequest(c: Cfg, r: Routes, req: Request)
    requires IsDomainRequest(req) && Apply(c, r, req).error.Some?
    ensures Apply(c, r, req).cfg == c <==> !TouchesNewEntry(c, r, req)
  {
    var t := ResolveTarget(c, r, ToAsciiLower(req.name));
    if t.Some? { TouchIsIdleIff(c.domains, t.value); }
  }

  lemma RefusedRuleRequest(c: Cfg, r: Routes, req: Request)
    requires IsRuleRequest(req) && Apply(c, r, req).error.Some?
    ensures Apply(c, r, req).cfg == c
  {
  }

  /** A refused request leaves its argument as it was, unless it is a RemoveDomain that found no entry for
      a claimant it did resolve; and then it always leaves an empty one. */
  lemma RefusalLeavesNoTraceIff(c: Cfg, r: Routes, req: Request)
    requires Apply(c, r, req).error.Some?
    ensures Apply(c, r, req).cfg == c <==> !TouchesNewEntry(c, r, req)
  {
    if IsDomainRequest(req) {
      RefusedDomainRequest(c, r, req);
    } else if IsRuleRequest(req) {
      RefusedRuleRequest(c, r, req);
    }
  }

  /** It does happen: any domain but its apex, asked of a linked site without a delta. */
  lemma RefusedRemoveLeavesATrace(c: Cfg, r: Routes, raw: string, dom: string)
    requires var name := ToAsciiLower(raw); IsLinked(c, name) && name !in c.domains.linked && dom != Domains.Apex(name)
    ensures var o := DoRemoveDomain(c, r, raw, Some(dom));
            && o.error == Some(Invalid) && TouchesNewEntry(c, r, RemoveDomain(raw, Some(dom)))
            && o.cfg.domains.linked == c.domains.linked[ToAsciiLower(raw) := NO_DELTA]
  {
  }
}
