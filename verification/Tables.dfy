/** The participant table over any sequence of round-1, round-2 and signature-replacement steps. */
module Tables {
  import opened Wrappers
  import opened Curve
  import opened Transactions
  import opened Slates
  import opened Coins

  datatype Edit = Round1(x: int, k: int) | Round2(x: int, k: int) | Replace(old_: Sig, new_: Sig)

  function Apply(env: Env, s: Slate, e: Edit): Slate {
    var r := match e
             case Round1(x, k) => FillRound1(s, x, k)
             case Round2(x, k) => FillRound2(env, s, x, k)
             case Replace(o, n) => ReplaceSig(s, o, n);
    if r.Ok? then r.value else s
  }

  function ApplyAll(env: Env, s: Slate, es: seq<Edit>): Slate {
    if |es| == 0 then s else Apply(env, ApplyAll(env, s, es[..|es| - 1]), es[|es| - 1])
  }

  type Identity = (Point, Point)

  function Id(p: Participant): Identity { (p.key, p.nonce) }

  /** No two entries belong to the same participant. */
  ghost predicate Unique(ps: seq<Participant>) { forall i, j :: 0 <= i < j < |ps| ==> Id(ps[i]) != Id(ps[j]) }

  /** This participant has an entry with a signature. */
  ghost predicate Signed(ps: seq<Participant>, id: Identity) {
    exists i :: 0 <= i < |ps| && Id(ps[i]) == id && ps[i].sig.Some?
  }

  /** The entries of participants outside a set, in order. */
  ghost function Rest(ps: seq<Participant>, touched: set<Identity>): seq<Identity> {
    if |ps| == 0 then []
    else Rest(ps[..|ps| - 1], touched) + if Id(ps[|ps| - 1]) in touched then [] else [Id(ps[|ps| - 1])]
  }

  ghost predicate Touches(e: Edit, touched: set<Identity>) { e.Round1? ==> (PointOf(e.x), PointOf(e.k)) in touched }

  // ---------------------------------------------------------------- round 1

  lemma {:induction false} OthersMembers(ps: seq<Participant>, key: Point, nonce: Point)
    ensures forall p :: p in Others(ps, key, nonce) <==> p in ps && !Matches(p, key, nonce)
  {
    if |ps| > 0 {
      var init, last := ps[..|ps| - 1], ps[|ps| - 1];
      OthersMembers(init, key, nonce);
      assert ps == init + [last];
    }
  }

  lemma {:induction false} OthersUnique(ps: seq<Participant>, key: Point, nonce: Point)
    requires Unique(ps)
    ensures Unique(Others(ps, key, nonce))
  {
    if |ps| > 0 {
      var init, last := ps[..|ps| - 1], ps[|ps| - 1];
      OthersUnique(init, key, nonce);
      OthersMembers(init, key, nonce);
      var rest := Others(init, key, nonce);
      forall i | 0 <= i < |rest| ensures Id(rest[i]) != Id(last) {
        assert rest[i] in init;
        var j :| 0 <= j < |init| && init[j] == rest[i];
        assert ps[j] == init[j];
      }
    }
  }

  lemma {:induction false} OthersRest(ps: seq<Participant>, key: Point, nonce: Point, touched: set<Identity>)
    requires (key, nonce) in touched
    ensures Rest(Others(ps, key, nonce), touched) == Rest(ps, touched)
  {
    if |ps| > 0 {
      var init, last := ps[..|ps| - 1], ps[|ps| - 1];
      OthersRest(init, key, nonce, touched);
      var rest := Others(init, key, nonce);
      assert (rest + [last])[..|rest|] == rest;
    }
  }

  /** The first signature a participant's entries hold is the one that is kept. */
  lemma {:induction false} KeptFacts(ps: seq<Participant>, key: Point, nonce: Point)
    ensures KeptSig(ps, key, nonce, None).Some? <==> Signed(ps, (key, nonce))
    ensures KeptSig(ps, key, nonce, None).Some? ==>
              exists i :: 0 <= i < |ps| && Id(ps[i]) == (key, nonce) && ps[i].sig == KeptSig(ps, key, nonce, None)
  {
    if |ps| > 0 {
      var init, last := ps[..|ps| - 1], ps[|ps| - 1];
      KeptFacts(init, key, nonce);
      assert ps == init + [last];
      assert forall i :: 0 <= i < |init| ==> ps[i] == init[i];
    }
  }

  lemma AppendFacts(rest: seq<Participant>, last: Participant, touched: set<Identity>)
    requires forall p :: p in rest ==> Id(p) != Id(last)
    ensures Unique(rest) ==> Unique(rest + [last])
    ensures Id(last) in touched ==> Rest(rest + [last], touched) == Rest(rest, touched)
  {
    var all := rest + [last];
    assert all[..|rest|] == rest && all[|rest|] == last;
  }

  lemma SignedSurvives(ps: seq<Participant>, key: Point, nonce: Point, id: Identity)
    requires Signed(ps, id)
    ensures Signed(Others(ps, key, nonce) + [Participant(key, nonce, KeptSig(ps, key, nonce, None))], id)
  {
    KeptFacts(ps, key, nonce);
    var rest, last := Others(ps, key, nonce), Participant(key, nonce, KeptSig(ps, key, nonce, None));
    var all := rest + [last];
    if id == (key, nonce) {
      assert all[|rest|] == last;
    } else {
      OthersMembers(ps, key, nonce);
      var i :| 0 <= i < |ps| && Id(ps[i]) == id && ps[i].sig.Some?;
      assert ps[i] in rest;
      var j :| 0 <= j < |rest| && rest[j] == ps[i];
      assert all[j] == rest[j];
    }
  }

  lemma Round1Facts(s: Slate, x: int, k: int, id: Identity, touched: set<Identity>)
    requires FillRound1(s, x, k).Ok? && (PointOf(x), PointOf(k)) in touched
    ensures var t := FillRound1(s, x, k).value;
            && (Unique(s.participants) ==> Unique(t.participants))
            && (Signed(s.participants, id) ==> Signed(t.participants, id))
            && Rest(t.participants, touched) == Rest(s.participants, touched)
            && t == s.(participants := t.participants)
  {
    hide Mod, Rest, KeptSig, Signed, Others;
    var key, nonce := PointOf(x), PointOf(k);
    OthersMembers(s.participants, key, nonce);
    OthersRest(s.participants, key, nonce, touched);
    if Unique(s.participants) {
      OthersUnique(s.participants, key, nonce);
    }
    AppendFacts(Others(s.participants, key, nonce), Participant(key, nonce, KeptSig(s.participants, key, nonce, None)),
                touched);
    if Signed(s.participants, id) {
      SignedSurvives(s.participants, key, nonce, id);
    }
  }

  // ---------------------------------------------------------------- round 2 and replacement

  /** Only the signature of one entry changes, and it ends up signed. */
  ghost predicate Resigned(ps: seq<Participant>, qs: seq<Participant>) {
    qs == ps || exists i, sig :: 0 <= i < |ps| && qs == ps[i := ps[i].(sig := Some(sig))]
  }

  lemma {:induction false} RestIgnoresSigs(ps: seq<Participant>, qs: seq<Participant>, touched: set<Identity>)
    requires |ps| == |qs| && forall i :: 0 <= i < |ps| ==> Id(ps[i]) == Id(qs[i])
    ensures Rest(ps, touched) == Rest(qs, touched)
  {
    if |ps| > 0 {
      RestIgnoresSigs(ps[..|ps| - 1], qs[..|qs| - 1], touched);
    }
  }

  lemma ResignedFacts(ps: seq<Participant>, qs: seq<Participant>, id: Identity, touched: set<Identity>)
    requires Resigned(ps, qs)
    ensures Unique(ps) ==> Unique(qs)
    ensures Signed(ps, id) ==> Signed(qs, id)
    ensures Rest(qs, touched) == Rest(ps, touched)
  {
    if qs != ps {
      var i, sig :| 0 <= i < |ps| && qs == ps[i := ps[i].(sig := Some(sig))];
      assert forall j :: 0 <= j < |ps| ==> Id(ps[j]) == Id(qs[j]);
      if Signed(ps, id) {
        var j :| 0 <= j < |ps| && Id(ps[j]) == id && ps[j].sig.Some?;
        assert Id(qs[j]) == id && qs[j].sig.Some?;
      }
    }
    RestIgnoresSigs(ps, qs, touched);
  }

  lemma EditResigns(env: Env, s: Slate, e: Edit)
    requires !e.Round1?
    ensures Resigned(s.participants, Apply(env, s, e).participants)
  {
    hide Mod, Sum, Slates.VerifyPartSigs, SigningContext, FindEntry, FindSig;
    if e.Round2? {
      var t := FillRound2(env, s, e.x, e.k);
      if t.Ok? && t.value != s {
        var i := FindEntry(s.participants, NumParticipants(s), PointOf(e.x), PointOf(e.k), 0).value;
        assert t.value.participants == s.participants[i := t.value.participants[i]];
      }
    } else {
      var t := ReplaceSig(s, e.old_, e.new_);
      if t.Ok? && t.value != s {
        var i := FindSig(s.participants, NumParticipants(s), e.old_, 0).value;
        assert t.value.participants == s.participants[i := t.value.participants[i]];
      }
    }
  }

  /** The table invariant over any sequence of steps, failed ones included: entries of distinct participants stay
      distinct, a participant that has signed keeps an entry with a signature, and the entries of participants
      nobody re-adds keep their order. */
  lemma {:induction false} TableInvariant(env: Env, s: Slate, es: seq<Edit>, id: Identity, touched: set<Identity>)
    requires forall i :: 0 <= i < |es| ==> Touches(es[i], touched)
    ensures var t := ApplyAll(env, s, es);
            && (Unique(s.participants) ==> Unique(t.participants))
            && (Signed(s.participants, id) ==> Signed(t.participants, id))
            && Rest(t.participants, touched) == Rest(s.participants, touched)
  {
    hide Mod, FillRound1, FillRound2, ReplaceSig, Unique, Signed, Rest;
    if |es| > 0 {
      var before, e := ApplyAll(env, s, es[..|es| - 1]), es[|es| - 1];
      TableInvariant(env, s, es[..|es| - 1], id, touched);
      if e.Round1? {
        if FillRound1(before, e.x, e.k).Ok? {
          Round1Facts(before, e.x, e.k, id, touched);
        }
      } else {
        EditResigns(env, before, e);
        ResignedFacts(before.participants, Apply(env, before, e).participants, id, touched);
      }
    }
  }

  /** Adding a participant that is already there moves its one entry to the end and changes nothing else. */
  lemma ReAdding(s: Slate, x: int, k: int, i: nat)
    requires FillRound1(s, x, k).Ok? && Unique(s.participants)
    requires i < |s.participants| && Id(s.participants[i]) == (PointOf(x), PointOf(k))
    ensures FillRound1(s, x,
                       k).value.participants == s.participants[..i] + s.participants[i + 1..] + [s.participants[i]]
  {
    hide Mod;
    var key, nonce := PointOf(x), PointOf(k);
    OthersWithout(s.participants, key, nonce, i);
    KeptOfUnique(s.participants, key, nonce, i);
  }

  lemma {:induction false} OthersWithout(ps: seq<Participant>, key: Point, nonce: Point, i: nat)
    requires Unique(ps) && i < |ps| && Id(ps[i]) == (key, nonce)
    ensures Others(ps, key, nonce) == ps[..i] + ps[i + 1..]
  {
    var init, last := ps[..|ps| - 1], ps[|ps| - 1];
    if i < |init| {
      assert Id(init[i]) == (key, nonce);
      OthersWithout(init, key, nonce, i);
      assert Id(ps[i]) != Id(last);
      assert init[i + 1..] + [last] == ps[i + 1..] && init[..i] == ps[..i];
    } else {
      NoMatches(init, key, nonce) by { assert forall j :: 0 <= j < |init| ==> Id(ps[j]) != Id(last); }
      assert ps[..i] + ps[i + 1..] == init;
    }
  }

  lemma {:induction false} NoMatches(ps: seq<Participant>, key: Point, nonce: Point)
    requires forall j :: 0 <= j < |ps| ==> Id(ps[j]) != (key, nonce)
    ensures Others(ps, key, nonce) == ps && KeptSig(ps, key, nonce, None) == None
  {
    if |ps| > 0 {
      NoMatches(ps[..|ps| - 1], key, nonce);
      assert Id(ps[|ps| - 1]) != (key, nonce);
      assert ps == ps[..|ps| - 1] + [ps[|ps| - 1]];
    }
  }

  lemma {:induction false} KeptOfUnique(ps: seq<Participant>, key: Point, nonce: Point, i: nat)
    requires Unique(ps) && i < |ps| && Id(ps[i]) == (key, nonce)
    ensures KeptSig(ps, key, nonce, None) == ps[i].sig
  {
    var init, last := ps[..|ps| - 1], ps[|ps| - 1];
    if i < |init| {
      assert Id(init[i]) == (key, nonce);
      KeptOfUnique(init, key, nonce, i);
      assert Id(ps[i]) != Id(last);
    } else {
      NoMatches(init, key, nonce) by { assert forall j :: 0 <= j < |init| ==> Id(ps[j]) != Id(last); }
    }
  }
}
