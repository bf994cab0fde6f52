/** The storage port the application comes with: ids from random bytes, hosts printed from ids. */
module Mocks {
  import opened WarmPools
  import opened PoolLaws
  import opened EndpointIds

  /** The address of an instance. */
  function BootHost(id: string, region: string): string {
    id + "." + region + ".compute.internal"
  }

  lemma BootHostInjective(a: string, b: string, region: string)
    requires BootHost(a, region) == BootHost(b, region)
    ensures a == b
  {
    var tail := "." + region + ".compute.internal";
    assert BootHost(a, region) == a + tail && BootHost(b, region) == b + tail;
    assert (a + tail)[..|a|] == a && (b + tail)[..|b|] == b;
  }

  /** A port that prints its hosts this way and never makes an id twice never gives a host twice. */
  lemma FreshIdsFreshHosts(boots: Boots, region: string)
    requires forall n: nat :: boots(n).Booted? ==> boots(n).inst.host == boots(n).inst.id + "." + region + ".compute.internal"
    requires forall m: nat, n: nat :: m < n && boots(m).Booted? && boots(n).Booted? ==> boots(m).inst.id != boots(n).inst.id
    ensures Fresh(boots)
  {
    forall m: nat, n: nat | m < n && boots(m).Booted? && boots(n).Booted?
      ensures boots(m).inst.host != boots(n).inst.host
    {
      if boots(m).inst.host == boots(n).inst.host {
        BootHostInjective(boots(m).inst.id, boots(n).inst.id, region);
      }
    }
  }

  function MockInstance(bytes: seq<byte>, region: string): WarmInstance
    requires |bytes| == ID_BYTES
  {
    WarmInstance(NewId("inst", bytes), BootHost(NewId("inst", bytes), region))
  }

  /** The port it comes with, for the bytes it draws; it answers nothing after them. */
  function MockBoots(draws: seq<seq<byte>>, region: string, coldBootMs: int): Boots
    requires forall i :: 0 <= i < |draws| ==> |draws[i]| == ID_BYTES
  {
    (n: nat) => if n < |draws| then Booted(MockInstance(draws[n], region), coldBootMs) else BootFailed(coldBootMs)
  }

  /** It is fresh when its draws are different. */
  lemma MockBootsFresh(draws: seq<seq<byte>>, region: string, coldBootMs: int)
    requires forall i :: 0 <= i < |draws| ==> |draws[i]| == ID_BYTES
    requires forall i, j :: 0 <= i < j < |draws| ==> draws[i] != draws[j]
    ensures Fresh(MockBoots(draws, region, coldBootMs))
  {
    var boots := MockBoots(draws, region, coldBootMs);
    forall m: nat, n: nat | m < n && boots(m).Booted? && boots(n).Booted? ensures boots(m).inst.id != boots(n).inst.id {
      if boots(m).inst.id == boots(n).inst.id {
        NewIdInjective("inst", draws[m], draws[n]);
      }
    }
    FreshIdsFreshHosts(boots, region);
  }

  // ---- A port that never fails ----

  function Marks(n: nat): (s: string)
    ensures |s| == n
  {
    seq(n, i => 'i')
  }

  function EndlessBoots(region: string): Boots {
    (n: nat) => Booted(WarmInstance(Marks(n), BootHost(Marks(n), region)), 0)
  }

  lemma EndlessBootsFresh(region: string)
    ensures Fresh(EndlessBoots(region)) && forall n: nat :: EndlessBoots(region)(n).Booted?
  {
    FreshIdsFreshHosts(EndlessBoots(region), region);
  }
}
