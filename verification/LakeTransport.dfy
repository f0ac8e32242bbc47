/** The three layers joined: build on a base, publish, garbage collect for as long as one likes, reconstruct. */
module LakeTransport {
  import opened Wrappers
  import opened Lake
  import opened BuildManifest
  import Chunk
  import LakeTheorems
  import Reconstruct
  import PackStores

  /** What a bucket holds when each pack in `present` has its own bytes. */
  function Bucket(present: set<Pack>): map<Pack, Bytes> {
    map p | p in present :: p.preimage
  }

  /**
   * Build, publish, reconstruct: if the base reconstructs from the bucket, the new manifest reconstructs from the
   * bucket with the novel packs added, and gives back the payload byte for byte. The result is a base again.
   */
  lemma BuildPublishReconstruct(data: Bytes, base: Option<Chunk.Manifest>, target: nat, m: Chunk.Manifest,
                                packs: seq<(Pack, Bytes)>, objects: map<Pack, Bytes>)
    requires m.chunkSize > 0 && Built(data, BaseIndex(base, m.chunkSize), target, m, packs)
    requires base.Some? ==> Chunk.WellFormed(base.value) && Reconstruct.Healthy(base.value, objects)
    ensures Chunk.WellFormed(m) && Chunk.Data(m) == data
    ensures Reconstruct.Healthy(m, objects + Bucket(Novel(packs)))
  {
    BuiltMeansPayload(data, base, target, m, packs);
    BuiltOnBaseOnly(data, base, target, m, packs);
    Reconstruct.WellFormedIsHealthy(m, objects + Bucket(Novel(packs)));
  }

  /** One build of a chain; each takes its predecessor as base. */
  datatype Link = Link(data: Bytes, m: Chunk.Manifest, packs: seq<(Pack, Bytes)>)

  ghost predicate ChainLink(ls: seq<Link>, i: nat, target: nat)
    requires i < |ls|
  {
    var base := if i == 0 then None else Some(ls[i - 1].m);
    ls[i].m.chunkSize > 0 && Built(ls[i].data, BaseIndex(base, ls[i].m.chunkSize), target, ls[i].m, ls[i].packs)
  }

  /** Packs uploaded by the first n builds. */
  function Uploaded(ls: seq<Link>, n: nat): set<Pack>
    requires n <= |ls|
  {
    if n == 0 then {} else Uploaded(ls, n - 1) + Novel(ls[n - 1].packs)
  }

  /**
   * Along any chain of builds, whatever payloads and chunk sizes, every generation reconstructs from what was
   * uploaded up to it.
   */
  lemma {:induction false} ChainReconstructs(ls: seq<Link>, n: nat, target: nat)
    requires n < |ls| && forall i :: 0 <= i < |ls| ==> ChainLink(ls, i, target)
    ensures Chunk.WellFormed(ls[n].m) && Chunk.Data(ls[n].m) == ls[n].data
    ensures Reconstruct.Healthy(ls[n].m, Bucket(Uploaded(ls, n + 1)))
  {
    var base := if n == 0 then None else Some(ls[n - 1].m);
    if n > 0 { ChainReconstructs(ls, n - 1, target); }
    assert ChainLink(ls, n, target);
    LinkReconstructs(ls[n], base, target, Uploaded(ls, n));
  }

  /** One link, on a base that reconstructs from what was uploaded before. */
  lemma LinkReconstructs(l: Link, base: Option<Chunk.Manifest>, target: nat, uploaded: set<Pack>)
    requires l.m.chunkSize > 0 && Built(l.data, BaseIndex(base, l.m.chunkSize), target, l.m, l.packs)
    requires base.Some? ==> Chunk.WellFormed(base.value) && Reconstruct.Healthy(base.value, Bucket(uploaded))
    ensures Chunk.WellFormed(l.m) && Chunk.Data(l.m) == l.data
    ensures Reconstruct.Healthy(l.m, Bucket(uploaded + Novel(l.packs)))
  {
    BuildPublishReconstruct(l.data, base, target, l.m, l.packs, Bucket(uploaded));
    assert Bucket(uploaded) + Bucket(Novel(l.packs)) == Bucket(uploaded + Novel(l.packs));
  }

  /** A build on the fetched head is a plan the step machine accepts. */
  lemma BuildIsAPlan(s: State, ph: Phase, base: Option<Chunk.Manifest>, target: nat, id: nat, m: Chunk.Manifest,
                     packs: seq<(Pack, Bytes)>)
    requires ph.Based? && ph.target > 0 && ph.target - 1 in s.markers && id !in s.used
    requires m.chunkSize > 0 && Built(ph.work, BaseIndex(base, m.chunkSize), target, m, packs)
    requires var k := KeyOf(s, ph.target - 1);
             if s.markers[ph.target - 1].chunked
             then k in s.live && k in s.sent && base.Some? && s.sent[k].body == Chunked(base.value)
                 && Chunk.WellFormed(base.value)
             else base.None?
    ensures PhaseEnabled(s, ph, Plan(id, Chunked(m), Novel(packs)))
  {
    BuiltMeansPayload(ph.work, base, target, m, packs);
    BuiltOnBaseOnly(ph.work, base, target, m, packs);
    BuiltIsCutAtOffsets(ph.work, base, target, m, packs);
  }

  /** In every timely run each chunked generation of the window reconstructs to the fold of its winners' changesets. */
  lemma WindowReconstructs(c: Config, ss: seq<State>, es: seq<Event>, i: nat, g: nat)
    requires c.Valid() && IsTimelyRun(c, ss, es) && i < |ss| && g < Top(ss[i]) && g + c.retain >= Top(ss[i])
    ensures g in ss[i].markers && KeyOf(ss[i], g) in ss[i].live && KeyOf(ss[i], g) in ss[i].sent
    ensures var body := ss[i].sent[KeyOf(ss[i], g)].body;
            && body.Data() == LakeTheorems.Folded(c, ss[i], g)
            && (body.Chunked? ==> Reconstruct.Healthy(body.manifest, Bucket(ss[i].packs.Keys)))
  {
    var s := ss[i];
    LakeTheorems.WindowIsRetained(c, ss, es, i, g);
    LakeTheorems.SerialHistory(c, ss, es, i);
    LakeTheorems.PayloadIsWellFormed(c, ss, es, i, g);
    var body := s.sent[KeyOf(s, g)].body;
    if body.Chunked? {
      forall p | p in body.manifest.Packs() ensures PackStores.Intact(Bucket(s.packs.Keys), p) {
        LakeTheorems.PackSafety(c, ss, es, i, g, p);
      }
      Reconstruct.WellFormedIsHealthy(body.manifest, Bucket(s.packs.Keys));
    }
  }
}
