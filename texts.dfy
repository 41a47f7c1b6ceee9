/** Floating score texts as values: one update, and the update-and-purge pass over the list. */
module Texts {

  /** A floating text: position, label and remaining life in updates. */
  datatype Popup = Popup(x: int, y: int, text: string, life: int)

  /** FloatingText.update: one pixel up, one update of life less. */
  function Decay(p: Popup): (q: Popup)
    ensures q.x == p.x && q.text == p.text
    ensures q.y == p.y - 1 && q.life == p.life - 1
  {
    p.(y := p.y - 1, life := p.life - 1)
  }

  /** What the purge pass keeps of one text after updating it. */
  function Survivor(p: Popup): seq<Popup>
  {
    var q := Decay(p);
    if q.life <= 0 then [] else [q]
  }

  /**
   * The purge pass: every text is updated once, in list order, and those whose
   * life has reached zero are dropped. At most as many texts remain, all alive.
   */
  function Aged(ps: seq<Popup>): (qs: seq<Popup>)
    ensures |qs| <= |ps|
    ensures forall i :: 0 <= i < |qs| ==> qs[i].life > 0
  {
    if ps == [] then [] else Aged(ps[..|ps| - 1]) + Survivor(ps[|ps| - 1])
  }

  /** Adding one text at the end adds what the pass keeps of it. */
  lemma AgedSnoc(ps: seq<Popup>, p: Popup)
    ensures Aged(ps + [p]) == Aged(ps) + Survivor(p)
  {
    assert (ps + [p])[..|ps|] == ps;
  }

  /** The pass works text by text: it distributes over concatenation. */
  lemma {:induction false} AgedAppend(a: seq<Popup>, b: seq<Popup>)
    ensures Aged(a + b) == Aged(a) + Aged(b)
  {
    if b == [] {
      assert a + b == a;
    } else {
      var b' := b[..|b| - 1];
      assert (a + b)[..|a + b| - 1] == a + b';
      assert (a + b)[|a + b| - 1] == b[|b| - 1];
      AgedAppend(a, b');
    }
  }

  /** A text whose life stays above one after the pass is kept, one step older, in place. */
  lemma {:induction false} AgedKeepsLongLived(ps: seq<Popup>)
    requires forall i :: 0 <= i < |ps| ==> ps[i].life > 1
    ensures |Aged(ps)| == |ps|
    ensures forall i :: 0 <= i < |ps| ==> Aged(ps)[i] == Decay(ps[i])
  {
    if ps != [] {
      AgedKeepsLongLived(ps[..|ps| - 1]);
    }
  }

  /** A text n updates older. */
  function Older(p: Popup, n: int): Popup
  {
    p.(y := p.y - n, life := p.life - n)
  }

  /** n consecutive purge passes. */
  function Fade(ps: seq<Popup>, n: nat): seq<Popup>
  {
    if n == 0 then ps else Aged(Fade(ps, n - 1))
  }

  /**
   * A text with life L >= 1 survives exactly L - 1 passes, n pixels higher and
   * n updates younger after n of them, and is gone from the L-th pass on.
   */
  lemma {:induction false} PopupLifetime(p: Popup, n: nat)
    requires p.life >= 1
    ensures Fade([p], n) == if n < p.life then [Older(p, n)] else []
  {
    if n > 0 {
      PopupLifetime(p, n - 1);
      var prev := Fade([p], n - 1);
      assert Fade([p], n) == Aged(prev);
      if n - 1 < p.life {
        var q := Older(p, n - 1);
        assert prev == [q];
        AgedSingle(q);
        assert Decay(q) == Older(p, n);
      } else {
        assert prev == [];
      }
    }
  }

  lemma AgedSingle(q: Popup)
    ensures Aged([q]) == Survivor(q)
  {
    assert [q][..0] == [];
  }

  /** A fresh "+10" (life 30) is still shown after 29 updates and removed on the 30th. */
  lemma FreshPopupLifetime(p: Popup)
    requires p.life == 30
    ensures |Fade([p], 29)| == 1 && Fade([p], 29)[0].life == 1
    ensures Fade([p], 30) == []
  {
    PopupLifetime(p, 29);
    PopupLifetime(p, 30);
  }
}
