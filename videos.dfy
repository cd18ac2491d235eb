/** The `Video` and `Channel` records the feed code passes around, and the
    id-based uniqueness the feeds promise. */
module Videos {
  import opened Seqs

  /** The fields of `Video` the core reads. `isoDuration` is the machine form
      ("PT1H2M3S"), `duration` the display form ("1:02:03"). */
  datatype Video = Video(
    id: string,
    title: string,
    channelId: string,
    channelName: string,
    channelAvatarUrl: string,
    duration: string,
    isoDuration: string)

  datatype Channel = Channel(id: string, name: string, avatarUrl: string)

  function IdSet(s: seq<Video>): (r: set<string>)
    ensures forall v :: v in s ==> v.id in r
    ensures forall x :: x in r ==> exists v :: v in s && v.id == x
  {
    set v | v in s :: v.id
  }

  function IdOf(v: Video): string
  {
    v.id
  }

  /** No id occurs at two positions. */
  ghost predicate DistinctIds(s: seq<Video>)
  {
    forall i, j :: 0 <= i < j < |s| ==> s[i].id != s[j].id
  }

  /** The same property on a multiset, where it survives any reordering:
      entries that share an id are one entry, held once. */
  ghost predicate UniqueIds(m: multiset<Video>)
  {
    && (forall x, y :: x in m && y in m && x.id == y.id ==> x == y)
    && (forall x :: x in m ==> m[x] == 1)
  }

  /** No entry of `m` shares its id with an entry of `n`. */
  ghost predicate IdDisjoint(m: multiset<Video>, n: multiset<Video>)
  {
    forall x, y :: x in m && y in n ==> x.id != y.id
  }

  lemma DistinctIdsAsMultiset(s: seq<Video>)
    ensures DistinctIds(s) <==> UniqueIds(multiset(s))
  {
    DistinctByAsMultiset(s, IdOf);
    assert DistinctIds(s) <==> DistinctBy(s, IdOf);
    assert UniqueIds(multiset(s)) <==> UniqueBy(multiset(s), IdOf);
  }

  lemma UniqueIdsSub(m: multiset<Video>, n: multiset<Video>)
    requires m <= n && UniqueIds(n)
    ensures UniqueIds(m)
  {
    forall x | x in m ensures m[x] == 1 {
      assert n[x] == 1;
    }
  }

  lemma UniqueIdsUnion(m: multiset<Video>, n: multiset<Video>)
    requires UniqueIds(m) && UniqueIds(n) && IdDisjoint(m, n)
    ensures UniqueIds(m + n)
  {
    forall x | x in m + n ensures (m + n)[x] == 1 {
      if x in m {
        assert x !in n;
      }
    }
  }
}
