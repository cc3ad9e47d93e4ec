/**
  The mouse trail: a bounded buffer of particles fed by a throttled
  mousemove handler and drained by per-particle expiry.

  Time, randomness and the window width are parameters: `now` stands for
  Date.now(), `r` for Math.random() (a real in [0, 1)), `width` for
  window.innerWidth. The 1000 ms expiry timer is the explicit event Expire.
 */
module MouseTrail {
  import opened Js

  const ThrottleDelay: int := 35
  const MaxParticles: nat := 14
  /** The trail is on for windows wider than this many pixels. */
  const MinWidth: int := 768

  const Colors: seq<string> := ["rgba(34,211,238,0.9)", "rgba(59,130,246,0.9)", "rgba(147,51,234,0.9)"]

  datatype Particle = Particle(id: nat, x: int, y: int, color: string)

  /** `Math.floor(Math.random() * colors.length)` is always a valid index. */
  function ColorIndex(r: real): (k: nat)
    requires 0.0 <= r < 1.0
    ensures k < |Colors|
    ensures k as real <= r * 3.0 < k as real + 1.0
  {
    (r * 3.0).Floor
  }

  /** `updated.slice(-14)`: the last 14 elements, or all of them if fewer. */
  function KeepLast(s: seq<Particle>): (r: seq<Particle>)
    ensures |r| == if |s| <= MaxParticles then |s| else MaxParticles
    ensures forall i :: 0 <= i < |r| ==> r[i] == s[|s| - |r| + i]
  {
    if |s| <= MaxParticles then s else s[|s| - MaxParticles..]
  }

  /** `prev.filter((p) => p.id !== id)`. */
  function WithoutId(ps: seq<Particle>, id: nat): (r: seq<Particle>)
    ensures |r| <= |ps|
    ensures forall p :: p in r <==> p in ps && p.id != id
    ensures KeepsIdsIncreasing(r, ps)
  {
    if ps == [] then []
    else if ps[0].id == id then WithoutId(ps[1..], id)
    else [ps[0]] + WithoutId(ps[1..], id)
  }

  /** The filter keeps every particle with another id, as often as it occurs
      and in its order, and no particle with the expired id. */
  lemma {:induction false} WithoutIdKeepsOthers(ps: seq<Particle>, id: nat)
    ensures IsSubsequence(WithoutId(ps, id), ps)
    ensures forall p :: multiset(WithoutId(ps, id))[p] == if p.id != id then multiset(ps)[p] else 0
  {
    if ps != [] {
      var rest := WithoutId(ps[1..], id);
      WithoutIdKeepsOthers(ps[1..], id);
      assert ps == [ps[0]] + ps[1..];
      if ps[0].id == id {
        assert rest != [] ==> rest[0] in rest && rest[0] != ps[0];
      } else {
        assert ([ps[0]] + rest)[1..] == rest;
      }
    }
  }

  /** When s has increasing ids, so has r. */
  ghost predicate KeepsIdsIncreasing(r: seq<Particle>, s: seq<Particle>)
  {
    IdsIncreasing(s) ==> IdsIncreasing(r)
  }

  /** Particle ids strictly increase along the buffer. */
  ghost predicate IdsIncreasing(ps: seq<Particle>)
  {
    forall i, j :: 0 <= i < j < |ps| ==> ps[i].id < ps[j].id
  }

  /** Dropping leading particles keeps the ids increasing. */
  lemma SuffixIncreasing(ps: seq<Particle>, k: nat)
    requires IdsIncreasing(ps) && k <= |ps|
    ensures IdsIncreasing(ps[k..])
  {
    forall i, j | 0 <= i < j < |ps| - k ensures ps[k..][i].id < ps[k..][j].id {
      assert ps[k..][i] == ps[k + i] && ps[k..][j] == ps[k + j];
    }
  }

  /** Appending a particle newer than all others keeps the ids increasing. */
  lemma AppendNewest(ps: seq<Particle>, p: Particle)
    requires IdsIncreasing(ps) && forall q :: q in ps ==> q.id < p.id
    ensures IdsIncreasing(ps + [p])
  {
    forall i, j | 0 <= i < j < |ps| + 1 ensures (ps + [p])[i].id < (ps + [p])[j].id {
      assert (ps + [p])[i] == ps[i] && ps[i] in ps;
    }
  }

  /** What slice(-14) keeps is a suffix of the buffer. */
  lemma KeepLastIsSuffix(s: seq<Particle>) returns (k: nat)
    ensures k <= |s| && KeepLast(s) == s[k..]
  {
    k := |s| - |KeepLast(s)|;
  }

  /** Cutting keeps only particles of the buffer. */
  lemma KeepLastMembers(s: seq<Particle>)
    ensures forall q :: q in KeepLast(s) ==> q in s
  {
    var k := KeepLastIsSuffix(s);
    forall q | q in KeepLast(s) ensures q in s {
      var i :| 0 <= i < |s[k..]| && s[k..][i] == q;
      assert s[k + i] == q;
    }
  }

  /** Cutting keeps only palette colours. */
  lemma CutKeepsColors(ps: seq<Particle>, p: Particle)
    requires forall q :: q in ps ==> q.color in Colors
    requires p.color in Colors
    ensures forall q :: q in KeepLast(ps + [p]) ==> q.color in Colors
  {
    KeepLastMembers(ps + [p]);
  }

  /** Appending the newest particle and cutting keeps the ids increasing. */
  lemma CutKeepsIds(ps: seq<Particle>, p: Particle)
    requires IdsIncreasing(ps) && forall q :: q in ps ==> q.id < p.id
    ensures IdsIncreasing(KeepLast(ps + [p]))
  {
    var grown := ps + [p];
    var k := KeepLastIsSuffix(grown);
    AppendNewest(ps, p);
    SuffixIncreasing(grown, k);
  }

  /** After appending p and cutting, every id is at most p's. */
  lemma CutKeepsBelow(ps: seq<Particle>, p: Particle)
    requires forall q :: q in ps ==> q.id < p.id
    ensures forall q :: q in KeepLast(ps + [p]) ==> q.id < p.id + 1
  {
    KeepLastMembers(ps + [p]);
  }

  /** Appending the newest particle and cutting to the last 14 keeps a buffer
      of palette-coloured particles with increasing ids below the counter. */
  lemma AppendAndCut(ps: seq<Particle>, p: Particle, idsOk: bool)
    requires forall q :: q in ps ==> q.color in Colors
    requires p.color in Colors
    requires idsOk ==> IdsIncreasing(ps) && forall q :: q in ps ==> q.id < p.id
    ensures |KeepLast(ps + [p])| <= MaxParticles
    ensures forall q :: q in KeepLast(ps + [p]) ==> q.color in Colors
    ensures idsOk ==> IdsIncreasing(KeepLast(ps + [p])) &&
                      forall q :: q in KeepLast(ps + [p]) ==> q.id < p.id + 1
  {
    CutKeepsColors(ps, p);
    if idsOk {
      CutKeepsIds(ps, p);
      CutKeepsBelow(ps, p);
    }
  }

  /** Expiring an id that is not in the buffer changes nothing. */
  lemma {:induction false} ExpireAbsent(ps: seq<Particle>, id: nat)
    requires forall q :: q in ps ==> q.id != id
    ensures WithoutId(ps, id) == ps
  {
    if ps != [] {
      assert ps[0] in ps;
      assert forall q :: q in ps[1..] ==> q in ps;
      ExpireAbsent(ps[1..], id);
      assert [ps[0]] + ps[1..] == ps;
    }
  }

  /** With increasing ids, expiring the id of the particle at k removes that
      particle and no other, and keeps the rest in order. */
  lemma {:induction false} ExpireRemovesAt(ps: seq<Particle>, id: nat, k: nat)
    requires IdsIncreasing(ps) && k < |ps| && ps[k].id == id
    ensures WithoutId(ps, id) == ps[..k] + ps[k + 1..]
  {
    if k == 0 {
      ExpireHead(ps, id);
    } else {
      HeadKept(ps, id, k);
      ExpireRemovesAt(ps[1..], id, k - 1);
      RejoinAround(ps, WithoutId(ps, id), WithoutId(ps[1..], id), k);
    }
  }

  /** With increasing ids, a particle before the one with the expired id
      survives, and the rest of the buffer still has increasing ids. */
  lemma HeadKept(ps: seq<Particle>, id: nat, k: nat)
    requires IdsIncreasing(ps) && 0 < k < |ps| && ps[k].id == id
    ensures WithoutId(ps, id) == [ps[0]] + WithoutId(ps[1..], id)
    ensures IdsIncreasing(ps[1..]) && ps[1..][k - 1].id == id
  {
    assert ps[0].id < ps[k].id;
    SuffixIncreasing(ps, 1);
  }

  /** Putting the head back in front of the tail with its (k-1)-th element
      removed gives the buffer with its k-th element removed. */
  lemma RejoinAround<T>(ps: seq<T>, whole: seq<T>, tail: seq<T>, k: nat)
    requires 0 < k < |ps|
    requires whole == [ps[0]] + tail
    requires tail == ps[1..][..k - 1] + ps[1..][k..]
    ensures whole == ps[..k] + ps[k + 1..]
  {
    assert [ps[0]] + ps[1..][..k - 1] == ps[..k];
    assert ps[1..][k..] == ps[k + 1..];
  }

  /** With increasing ids, expiring the first particle's id removes just it. */
  lemma ExpireHead(ps: seq<Particle>, id: nat)
    requires IdsIncreasing(ps) && |ps| > 0 && ps[0].id == id
    ensures WithoutId(ps, id) == ps[1..]
  {
    forall q | q in ps[1..] ensures q.id != id {
      var j :| 0 <= j < |ps[1..]| && ps[1..][j] == q;
      assert ps[1..][j] == ps[j + 1];
    }
    ExpireAbsent(ps[1..], id);
  }

  class Trail {
    /** isEnabled: window wider than 768 pixels. */
    var enabled: bool
    var particles: seq<Particle>
    /** The handler's particleId counter. */
    var nextId: nat
    /** The handler's lastTime: when the last event was accepted. */
    var lastTime: int

    /** What holds in every state: at most 14 particles, each with a palette colour. */
    ghost predicate Bounded()
      reads this
    {
      |particles| <= MaxParticles && forall p :: p in particles ==> p.color in Colors
    }

    /** Ids increase along the buffer and are all below the counter. */
    ghost predicate IdsFresh()
      reads this
    {
      IdsIncreasing(particles) && forall p :: p in particles ==> p.id < nextId
    }

    ghost predicate Valid()
      reads this
    {
      Bounded() && IdsFresh()
    }

    /** Mounting measures the window; the move handler's counters start at 0 and now. */
    constructor (width: int, now: int)
      ensures Valid()
      ensures enabled == (width > MinWidth) && particles == [] && nextId == 0 && lastTime == now
    {
      enabled := width > MinWidth;
      particles := [];
      nextId := 0;
      lastTime := now;
    }

    /** A resize, with the id counter kept across a disable/enable cycle. */
    method Resize(width: int, now: int)
      requires Valid()
      modifies this
      ensures Valid()
      ensures enabled == (width > MinWidth) && particles == old(particles) && nextId == old(nextId)
      ensures lastTime == if enabled && !old(enabled) then now else old(lastTime)
    {
      if width > MinWidth && !enabled {
        lastTime := now;
      }
      enabled := width > MinWidth;
    }

    /** A resize as the component does it: turning the trail back on re-runs
        the effect, which starts a fresh handler whose id counter is 0 again,
        while the earlier particles are still in the buffer. */
    method ResizeAsWritten(width: int, now: int)
      requires Bounded()
      modifies this
      ensures Bounded()
      ensures enabled == (width > MinWidth) && particles == old(particles)
      ensures enabled && !old(enabled) ==> nextId == 0 && lastTime == now
      ensures !(enabled && !old(enabled)) ==> nextId == old(nextId) && lastTime == old(lastTime)
    {
      if width > MinWidth && !enabled {
        nextId := 0;
        lastTime := now;
      }
      enabled := width > MinWidth;
    }

    /** handleMouseMove. Disabled: no handler is attached. Within 35 ms of the
        last accepted event: dropped, lastTime kept. Otherwise a particle with
        the counter's id and a palette colour is appended, the buffer is cut to
        its last 14, and the new id is returned (its expiry is due later). */
    method Move(x: int, y: int, now: int, r: real) returns (created: Option<nat>)
      requires Bounded() && 0.0 <= r < 1.0
      modifies this
      ensures Bounded()
      ensures old(IdsFresh()) ==> IdsFresh()
      ensures enabled == old(enabled)
      ensures created.None? <==> !old(enabled) || now - old(lastTime) < ThrottleDelay
      ensures created.None? ==>
        particles == old(particles) && nextId == old(nextId) && lastTime == old(lastTime)
      ensures created.Some? ==>
        created.value == old(nextId) && nextId == old(nextId) + 1 && lastTime == now &&
        particles == KeepLast(old(particles) + [Particle(old(nextId), x, y, Colors[ColorIndex(r)])])
    {
      if !enabled || now - lastTime < ThrottleDelay {
        return None;
      }
      lastTime := now;
      var p := Particle(nextId, x, y, Colors[ColorIndex(r)]);
      AppendAndCut(particles, p, IdsFresh());
      nextId := nextId + 1;
      particles := KeepLast(particles + [p]);
      created := Some(p.id);
    }

    /** The expiry timer of particle `id` fires: that id leaves the buffer. */
    method Expire(id: nat)
      requires Bounded()
      modifies this
      ensures Bounded()
      ensures old(IdsFresh()) ==> IdsFresh()
      ensures particles == WithoutId(old(particles), id)
      ensures enabled == old(enabled) && nextId == old(nextId) && lastTime == old(lastTime)
    {
      particles := WithoutId(particles, id);
    }

    /** Disabled, the component renders nothing; enabled, one dot per particle. */
    function Render(): (r: Option<seq<Particle>>)
      reads this
      ensures r.None? <==> !enabled
      ensures r.Some? ==> r.value == particles
    {
      if enabled then Some(particles) else None
    }
  }

  /** A freshly appended particle is the newest one in the buffer. */
  lemma NewestLast(ps: seq<Particle>, p: Particle)
    ensures KeepLast(ps + [p]) != [] && KeepLast(ps + [p])[|KeepLast(ps + [p])| - 1] == p
  {
  }

  /** A wide window and one accepted move: the trail holds one particle, id 0. */
  method OneParticle() returns (t: Trail)
    ensures fresh(t) && t.Bounded() && t.enabled && t.nextId == 1
    ensures t.particles == [Particle(0, 10, 10, Colors[0])]
  {
    t := new Trail(1024, 0);
    assert ColorIndex(0.0) == 0;
    var first := t.Move(10, 10, 100, 0.0);
  }

  /** Turning the trail off and on again with the component's own resize
      handling: the particle made before and the one made after both get id 0. */
  method ReenableReusesId() returns (t: Trail)
    ensures fresh(t) && t.Bounded() && t.enabled
    ensures t.particles == [Particle(0, 10, 10, Colors[0]), Particle(0, 20, 20, Colors[0])]
  {
    t := OneParticle();
    t.ResizeAsWritten(500, 200);
    t.ResizeAsWritten(1024, 300);
    assert t.nextId == 0 && t.lastTime == 300;
    assert ColorIndex(0.0) == 0;
    var second := t.Move(20, 20, 400, 0.0);
  }

  /** The first particle's expiry then removes both. */
  method ReusedIdExpiresBoth() returns (leftBefore: nat, leftAfter: nat)
    ensures leftBefore == 2 && leftAfter == 0
  {
    var t := ReenableReusesId();
    leftBefore := |t.particles|;
    var ps := t.particles;
    t.Expire(0);
    assert ps[1..] == [ps[1]] && [ps[1]][1..] == [];
    leftAfter := |t.particles|;
  }
}
