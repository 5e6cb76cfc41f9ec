/** The portal's own vocabulary for keys and their limits (internal/keyprovider). */
module KeyProvider {
  import opened Options

  /** Identifies a key to the gateway; never a credential. */
  type Ref = string

  /** An allowance and the period it resets on. */
  datatype QuotaWindow = QuotaWindow(budget: real, period: string)

  /** The constraints on an issued key. No models means every model, None means unlimited. */
  datatype Limits = Limits(models: seq<string>, tpm: Option<int>, rpm: Option<int>, quotas: seq<QuotaWindow>)

  /** The person a key belongs to. An empty id means everything is enforced on the key. */
  datatype Owner = Owner(id: string, name: string, email: string)

  /** The gateway user a person's keys are bound to, by the portal's prefix (internal/config/config.go). */
  function OwnerId(prefix: string, sub: string): string {
    if prefix == "" then sub else prefix + ":" + sub
  }

  /** Different people have different gateway users. */
  lemma OwnerIdsDiffer(prefix: string, a: string, b: string)
    requires OwnerId(prefix, a) == OwnerId(prefix, b)
    ensures a == b
  {
    if prefix != "" {
      var n := |prefix| + 1;
      assert a == OwnerId(prefix, a)[n..] && b == OwnerId(prefix, b)[n..];
    }
  }

  /** Equal limits up to the order of their windows. */
  ghost predicate SameLimits(a: Limits, b: Limits) {
    && a.models == b.models
    && a.tpm == b.tpm
    && a.rpm == b.rpm
    && multiset(a.quotas) == multiset(b.quotas)
  }

  /** A window that limits something: a blank row of the admin form does not. */
  predicate Effective(w: QuotaWindow) {
    w.budget > 0.0 && w.period != ""
  }

  function EffectiveWindows(ws: seq<QuotaWindow>): (r: seq<QuotaWindow>)
    ensures forall w :: w in r <==> w in ws && Effective(w)
  {
    if ws == [] then []
    else
      var init := EffectiveWindows(ws[..|ws| - 1]);
      var last := ws[|ws| - 1];
      assert ws == ws[..|ws| - 1] + [last];
      if Effective(last) then init + [last] else init
  }

  lemma {:induction false} EffectiveWindowsIdentity(ws: seq<QuotaWindow>)
    requires forall w :: w in ws ==> Effective(w)
    ensures EffectiveWindows(ws) == ws
  {
    if ws != [] {
      EffectiveWindowsIdentity(ws[..|ws| - 1]);
      assert ws == ws[..|ws| - 1] + [ws[|ws| - 1]];
    }
  }

  lemma {:induction false} EffectiveWindowsMultiset(ws: seq<QuotaWindow>, w: QuotaWindow)
    ensures multiset(EffectiveWindows(ws))[w] == if Effective(w) then multiset(ws)[w] else 0
  {
    if ws != [] {
      EffectiveWindowsMultiset(ws[..|ws| - 1], w);
      assert ws == ws[..|ws| - 1] + [ws[|ws| - 1]];
    }
  }

  /** Dropping blank windows does not depend on the order they come in. */
  lemma EffectiveWindowsOrderFree(a: seq<QuotaWindow>, b: seq<QuotaWindow>)
    requires multiset(a) == multiset(b)
    ensures multiset(EffectiveWindows(a)) == multiset(EffectiveWindows(b))
  {
    forall w ensures multiset(EffectiveWindows(a))[w] == multiset(EffectiveWindows(b))[w] {
      EffectiveWindowsMultiset(a, w);
      EffectiveWindowsMultiset(b, w);
    }
  }
}
