/** The handles that startup creates, in order, and the maps that hold them. */
module Made {
  import opened Registry

  /** What startup reads of a configured producer or consumer. */
  datatype Entry = Entry(name: string, enabled: bool)

  function EnabledNames(list: seq<Entry>): seq<string> {
    if list == [] then []
    else EnabledNames(list[..|list| - 1]) + (if list[|list| - 1].enabled then [list[|list| - 1].name] else [])
  }

  /** `names` are the names of the enabled entries, in list order, each such entry once and no other: `at` are
      their positions. */
  predicate PicksEnabled(list: seq<Entry>, names: seq<string>, at: seq<nat>) {
    && |at| == |names|
    && (forall j, k | 0 <= j < k < |at| :: at[j] < at[k])
    && (forall k | 0 <= k < |at| :: at[k] < |list| && list[at[k]].enabled && names[k] == list[at[k]].name)
    && (forall i | 0 <= i < |list| && list[i].enabled :: i in at)
  }

  lemma {:induction false} EnabledPicked(list: seq<Entry>) returns (at: seq<nat>)
    ensures PicksEnabled(list, EnabledNames(list), at)
  {
    at := [];
    if list != [] {
      var k := |list| - 1;
      at := EnabledPicked(list[..k]);
      PickOneMore(list, EnabledNames(list[..k]), at);
      if list[k].enabled { at := at + [k]; }
    }
  }

  lemma PickOneMore(list: seq<Entry>, names: seq<string>, at: seq<nat>)
    requires list != [] && PicksEnabled(list[..|list| - 1], names, at)
    ensures var k := |list| - 1;
            if list[k].enabled then PicksEnabled(list, names + [list[k].name], at + [k]) else PicksEnabled(list, names, at)
  {
    var k := |list| - 1;
    assert forall i | 0 <= i < k && list[i].enabled :: list[..k][i].enabled && i in at;
    assert (at + [k])[|at|] == k;
  }

  lemma EnabledSet(list: seq<Entry>)
    ensures (set n | n in EnabledNames(list)) == set e | e in list && e.enabled :: e.name
  {
    var at := EnabledPicked(list);
    var names := EnabledNames(list);
    forall e | e in list && e.enabled ensures e.name in names {
      var i :| 0 <= i < |list| && list[i] == e;
      var k :| 0 <= k < |at| && at[k] == i;
      assert names[k] == e.name;
    }
    forall n | n in names ensures exists e :: e in list && e.enabled && e.name == n {
      var k :| 0 <= k < |names| && names[k] == n;
      assert list[at[k]] in list;
    }
  }

  /** The handles that creating `names` in order yields; the library returns a new object a call. */
  function NewHandles(kind: Kind, names: seq<string>, base: nat): (hs: seq<Handle>)
    ensures |hs| == |names|
  {
    seq(|names|, i requires 0 <= i < |names| => Handle(kind, names[i], base + i))
  }

  /** The map that results from storing handles of one kind under their names in order. */
  function MapOf(kind: Kind, made: seq<Handle>): map<string, Slot> {
    if made == [] then map[]
    else
      var m, h := MapOf(kind, made[..|made| - 1]), made[|made| - 1];
      if h.kind == kind then m[h.name := Live(h)] else m
  }

  /** No later handle of the same kind took the name of the i-th one. */
  predicate LastUnder(made: seq<Handle>, i: nat)
    requires i < |made|
  {
    forall j | i < j < |made| :: made[j].kind != made[i].kind || made[j].name != made[i].name
  }

  predicate Distinct(names: seq<string>) {
    forall i, j | 0 <= i < j < |names| :: names[i] != names[j]
  }

  function AllHandles(ps: seq<string>, cs: seq<string>): seq<Handle> {
    NewHandles(Produced, ps, 0) + NewHandles(Configured, cs, |ps|)
  }

  /** Every handle created for `ps` and `cs` is the last under its name if and only if no name occurs twice
      among the producers or twice among the consumers. */
  lemma LastUnderIff(ps: seq<string>, cs: seq<string>)
    ensures (forall i | 0 <= i < |AllHandles(ps, cs)| :: LastUnder(AllHandles(ps, cs), i))
            <==> Distinct(ps) && Distinct(cs)
  {
    var made := AllHandles(ps, cs);
    if forall i | 0 <= i < |made| :: LastUnder(made, i) {
      forall i, j | 0 <= i < j < |ps| ensures ps[i] != ps[j] {
        assert LastUnder(made, i) && made[i].name == ps[i] && made[j].name == ps[j];
      }
      forall i, j | 0 <= i < j < |cs| ensures cs[i] != cs[j] {
        assert LastUnder(made, |ps| + i) && made[|ps| + i].name == cs[i] && made[|ps| + j].name == cs[j];
      }
    }
  }

  /** `made` is what creating the first `p` of the producers `ps` and then the first `c` of the consumers `cs`
      yields. */
  predicate Progress(made: seq<Handle>, ps: seq<string>, cs: seq<string>, p: nat, c: nat) {
    p <= |ps| && c <= |cs| && made == AllHandles(ps[..p], cs[..c])
  }

  lemma ProgressFrom(first: seq<Handle>, made: seq<Handle>, ps: seq<string>, cs: seq<string>, p: nat, c: nat)
    requires p <= |ps| && c <= |cs| && first == [] + NewHandles(Produced, ps[..p], 0)
    requires made == first + NewHandles(Configured, cs[..c], |first|)
    ensures Progress(made, ps, cs, p, c)
  {}

  /** Every handle has been closed exactly once. */
  predicate AllClosed(closes: multiset<Handle>, made: seq<Handle>) { forall h | h in made :: closes[h] == 1 }

  /** So when exactly the last handle under each name has been closed, and once, then every created handle
      has been if and only if no name was created twice. */
  lemma AllClosedIff(closes: multiset<Handle>, ps: seq<string>, cs: seq<string>)
    requires var made := AllHandles(ps, cs);
             forall i | 0 <= i < |made| :: closes[made[i]] == if LastUnder(made, i) then 1 else 0
    ensures AllClosed(closes, AllHandles(ps, cs)) <==> Distinct(ps) && Distinct(cs)
  {
    var made := AllHandles(ps, cs);
    LastUnderIff(ps, cs);
    assert forall i | 0 <= i < |made| :: made[i] in made;
  }

  predicate Numbered(made: seq<Handle>) {
    forall i | 0 <= i < |made| :: made[i].serial == i
  }

  predicate NoRegex(made: seq<Handle>) {
    forall i | 0 <= i < |made| :: made[i].kind != Regex
  }

  /** `made`, its maps and its numbering, and one more handle. */
  lemma OneMore(made: seq<Handle>, kind: Kind, name: string)
    ensures var h := Handle(kind, name, |made|);
            && MapOf(kind, made + [h]) == MapOf(kind, made)[name := Live(h)]
            && (forall other: Kind | other != kind :: MapOf(other, made + [h]) == MapOf(other, made))
            && (Numbered(made) ==> Numbered(made + [h]))
            && (NoRegex(made) && kind != Regex ==> NoRegex(made + [h]))
  {
    assert (made + [Handle(kind, name, |made|)])[..|made|] == made;
  }

  /** `made` is `first` and one handle for each of the first `i` names. */
  predicate MadeSoFar(kind: Kind, first: seq<Handle>, made: seq<Handle>, names: seq<string>, i: nat) {
    i <= |names| && made == first + NewHandles(kind, names[..i], |first|)
  }

  lemma MadeOneMore(kind: Kind, first: seq<Handle>, made: seq<Handle>, names: seq<string>, i: nat)
    requires i < |names| && MadeSoFar(kind, first, made, names, i)
    ensures MadeSoFar(kind, first, made + [Handle(kind, names[i], |made|)], names, i + 1)
  {}

  // ---- What the maps of a startup hold

  lemma {:induction false} MapOfShape(kind: Kind, made: seq<Handle>)
    ensures forall n | n in MapOf(kind, made) ::
              && MapOf(kind, made)[n].Live? && MapOf(kind, made)[n].handle.name == n
              && MapOf(kind, made)[n].handle.kind == kind && MapOf(kind, made)[n].handle in made
  {
    if made != [] {
      MapOfShape(kind, made[..|made| - 1]);
    }
  }

  lemma {:induction false} MapOfLast(kind: Kind, made: seq<Handle>, i: nat)
    requires Numbered(made) && i < |made| && made[i].kind == kind
    ensures SlotAt(MapOf(kind, made), made[i].name) == Live(made[i]) <==> LastUnder(made, i)
  {
    var k := |made| - 1;
    if i < k {
      MapOfLast(kind, made[..k], i);
      assert LastUnder(made, i) <==> LastUnder(made[..k], i) && !(made[k].kind == kind && made[k].name == made[i].name);
    }
  }

  /** Under each name the map holds the last handle made for it, and nothing else. */
  lemma MapOfHolds(kind: Kind, made: seq<Handle>)
    ensures forall n | n in MapOf(kind, made) :: MapOf(kind, made)[n].Live?
    ensures Homed(MapOf(kind, made))
    ensures forall h | h in LiveHandles(MapOf(kind, made)) :: h in made && h.kind == kind
    ensures Numbered(made) ==>
              forall i | 0 <= i < |made| && made[i].kind == kind ::
                made[i] in LiveHandles(MapOf(kind, made)) <==> LastUnder(made, i)
  {
    MapOfShape(kind, made);
    forall i | Numbered(made) && 0 <= i < |made| && made[i].kind == kind
      ensures made[i] in LiveHandles(MapOf(kind, made)) <==> LastUnder(made, i)
    {
      MapOfLast(kind, made, i);
      InLive(MapOf(kind, made), made[i]);
    }
  }

  lemma InLive(m: map<string, Slot>, h: Handle)
    requires Homed(m)
    ensures h in LiveHandles(m) <==> SlotAt(m, h.name) == Live(h)
  {}

  /** Closing everything right after a startup closes exactly the handles that the maps hold, once each. */
  lemma ClosedAreLast(r: Registry, made: seq<Handle>)
    requires r.producers == MapOf(Produced, made) && r.consumers == MapOf(Configured, made)
    requires Numbered(made) && NoRegex(made) && r.closes == multiset{}
    ensures forall h | h in TearDown(r, []).closes :: h in made
    ensures forall i | 0 <= i < |made| :: TearDown(r, []).closes[made[i]] == if LastUnder(made, i) then 1 else 0
  {
    MapOfHolds(Produced, made);
    MapOfHolds(Configured, made);
  }

  /** The handles under the names in `ns`. */
  function HandlesUnder(m: map<string, Slot>, ns: set<string>): set<Handle> {
    set n | n in ns && n in m && m[n].Live? :: m[n].handle
  }

  lemma HandlesGrow(m: map<string, Slot>, ns: set<string>, n: string)
    requires Homed(m) && n in m && n !in ns
    ensures multiset(HandlesUnder(m, ns + {n})) == multiset(HandlesUnder(m, ns)) + BagOf(m[n])
  {
    if m[n].Live? {
      assert HandlesUnder(m, ns + {n}) == HandlesUnder(m, ns) + {m[n].handle};
      assert m[n].handle !in HandlesUnder(m, ns);
    } else {
      assert HandlesUnder(m, ns + {n}) == HandlesUnder(m, ns);
    }
  }
}
