/** Row selection shared by the bulk run (abrir_chamados.py:210-237) and the
    preview (rt_chamado.py:424-445): section numbers sorted ascending, the
    smallest optionally dropped as the header row, a start filter, and a
    Python slice `[:qtd]`. */
module Selection {

  predicate StrictlyIncreasing(xs: seq<nat>) {
    forall i, j :: 0 <= i < j < |xs| ==> xs[i] < xs[j]
  }

  predicate IsMin(m: nat, s: set<nat>) {
    m in s && forall x :: x in s ==> m <= x
  }

  lemma {:induction false} MinExists(s: set<nat>)
    requires s != {}
    ensures exists m :: IsMin(m, s)
    decreases s
  {
    var y :| y in s;
    if s == {y} {
      assert IsMin(y, s);
    } else {
      MinExists(s - {y});
      var m :| IsMin(m, s - {y});
      var least := if y < m then y else m;
      forall x | x in s ensures least <= x {
        if x != y {
          assert x in s - {y};
        }
      }
      assert IsMin(least, s);
    }
  }

  /** The smallest element of a non-empty finite set of naturals. */
  function SetMin(s: set<nat>): (m: nat)
    requires s != {}
    ensures IsMin(m, s)
  {
    MinExists(s);
    var m :| IsMin(m, s);
    m
  }

  /** `sorted(int(s) for s in sections())`: the section numbers, ascending. */
  function SortedSections(s: set<nat>): seq<nat>
    decreases s
  {
    if s == {} then [] else var m := SetMin(s); [m] + SortedSections(s - {m})
  }

  /** `min(xs)` of a Python list. */
  function SeqMin(xs: seq<nat>): nat
    requires xs != []
    decreases |xs|
  {
    if |xs| == 1 then xs[0]
    else var m := SeqMin(xs[1..]); if xs[0] <= m then xs[0] else m
  }

  /** `[s for s in xs if s != m]` */
  function Without(xs: seq<nat>, m: nat): seq<nat>
    decreases |xs|
  {
    if xs == [] then [] else (if xs[0] != m then [xs[0]] else []) + Without(xs[1..], m)
  }

  /** `[s for s in xs if s >= lo]` */
  function AtLeast(xs: seq<nat>, lo: int): seq<nat>
    decreases |xs|
  {
    if xs == [] then [] else (if xs[0] >= lo then [xs[0]] else []) + AtLeast(xs[1..], lo)
  }

  /** The number of elements Python's `xs[:q]` keeps: a negative `q` counts
      from the end. */
  function SliceCount(n: nat, q: int): (c: nat)
    ensures c <= n
  {
    if q >= 0 then (if q <= n then q else n)
    else (if n + q >= 0 then n + q else 0)
  }

  /** Python's `xs[:q]`. */
  function PySliceTo(xs: seq<nat>, q: int): seq<nat>
  {
    xs[..SliceCount(|xs|, q)]
  }

  /** Removal of the header: every occurrence of the minimum goes. */
  function DropHeader(secoes: seq<nat>, ignorar: bool): seq<nat>
  {
    if ignorar && secoes != [] then Without(secoes, SeqMin(secoes)) else secoes
  }

  /** The sections the bulk run processes (abrir_chamados.py:227-237). */
  function Selecionar(secoes: seq<nat>, qtd: int, inicio: int, ignorar: bool): seq<nat>
  {
    PySliceTo(AtLeast(DropHeader(secoes, ignorar), inicio), qtd)
  }

  /** The sections the preview shows (rt_chamado.py:438-445): no start
      filter, and the slice bound is `min(qtd, len)`. */
  function SelecionarPreview(secoes: seq<nat>, qtd: int, ignorar: bool): seq<nat>
  {
    var rest := DropHeader(secoes, ignorar);
    PySliceTo(rest, if qtd <= |rest| then qtd else |rest|)
  }

  /** The rows a run may pick, as a set: every stored row at or after the
      start, except the smallest one when the header is skipped. */
  function Eligible(keys: set<nat>, inicio: int, ignorar: bool): set<nat>
  {
    set x | x in keys && x >= inicio && !(ignorar && x == SetMin(keys))
  }

  // ---------------------------------------------------------------------------
  // Properties

  /** The sorted list holds every section exactly once, ascending. */
  lemma {:induction false} SortedSectionsSpec(s: set<nat>)
    ensures StrictlyIncreasing(SortedSections(s))
    ensures |SortedSections(s)| == |s|
    ensures forall x :: x in SortedSections(s) <==> x in s
    decreases s
  {
    if s != {} {
      var m := SetMin(s);
      SortedSectionsSpec(s - {m});
      var rest := SortedSections(s - {m});
      assert SortedSections(s) == [m] + rest;
      forall i | 0 <= i < |rest| ensures m < rest[i] {
        assert rest[i] in s - {m};
      }
    }
  }

  /** Two ascending lists with the same elements are the same list. */
  lemma {:induction false} SortedUnique(xs: seq<nat>, ys: seq<nat>)
    requires StrictlyIncreasing(xs) && StrictlyIncreasing(ys)
    requires forall x :: x in xs <==> x in ys
    ensures xs == ys
    decreases |xs|
  {
    if xs != [] { assert xs[0] in ys; }
    if ys != [] { assert ys[0] in xs; }
    if xs != [] && ys != [] {
      assert xs[0] == ys[0];
      assert xs == [xs[0]] + xs[1..] && ys == [ys[0]] + ys[1..];
      forall x ensures x in xs[1..] <==> x in ys[1..] {
        if x in xs[1..] {
          var i :| 0 <= i < |xs[1..]| && xs[1..][i] == x;
          assert xs[i + 1] == x && x != xs[0];
          assert x in ys && x != ys[0];
        }
        if x in ys[1..] {
          var i :| 0 <= i < |ys[1..]| && ys[1..][i] == x;
          assert ys[i + 1] == x && x != ys[0];
          assert x in xs && x != xs[0];
        }
      }
      SortedUnique(xs[1..], ys[1..]);
      assert xs == [xs[0]] + xs[1..] && ys == [ys[0]] + ys[1..];
    }
  }

  lemma {:induction false} SeqMinIsMin(xs: seq<nat>)
    requires xs != []
    ensures SeqMin(xs) in xs && forall x :: x in xs ==> SeqMin(xs) <= x
    decreases |xs|
  {
    if |xs| > 1 {
      SeqMinIsMin(xs[1..]);
      forall x | x in xs ensures SeqMin(xs) <= x {
        if x != xs[0] {
          assert x in xs[1..];
        }
      }
    }
  }

  /** `Without` keeps the other elements, in order. */
  lemma {:induction false} WithoutSpec(xs: seq<nat>, m: nat)
    ensures forall x :: x in Without(xs, m) <==> x in xs && x != m
    ensures StrictlyIncreasing(xs) ==> StrictlyIncreasing(Without(xs, m))
    decreases |xs|
  {
    if xs != [] {
      WithoutSpec(xs[1..], m);
      var rest := Without(xs[1..], m);
      forall x ensures x in Without(xs, m) <==> x in xs && x != m {
        assert x in xs <==> x == xs[0] || x in xs[1..];
      }
      if StrictlyIncreasing(xs) {
        forall i | 0 <= i < |rest| ensures xs[0] < rest[i] {
          assert rest[i] in xs[1..];
        }
      }
    }
  }

  /** `AtLeast` keeps exactly the elements at or above the bound, in order. */
  lemma {:induction false} AtLeastSpec(xs: seq<nat>, lo: int)
    ensures forall x :: x in AtLeast(xs, lo) <==> x in xs && x >= lo
    ensures StrictlyIncreasing(xs) ==> StrictlyIncreasing(AtLeast(xs, lo))
    decreases |xs|
  {
    if xs != [] {
      AtLeastSpec(xs[1..], lo);
      var rest := AtLeast(xs[1..], lo);
      forall x ensures x in AtLeast(xs, lo) <==> x in xs && x >= lo {
        assert x in xs <==> x == xs[0] || x in xs[1..];
      }
      if StrictlyIncreasing(xs) {
        forall i | 0 <= i < |rest| ensures xs[0] < rest[i] {
          assert rest[i] in xs[1..];
        }
      }
    }
  }

  /** Filtering at a bound every element already meets changes nothing. */
  lemma {:induction false} AtLeastAll(xs: seq<nat>, lo: int)
    requires forall x :: x in xs ==> x >= lo
    ensures AtLeast(xs, lo) == xs
    decreases |xs|
  {
    if xs != [] {
      assert xs[0] in xs;
      forall x | x in xs[1..] ensures x >= lo {
        assert x in xs;
      }
      AtLeastAll(xs[1..], lo);
      assert xs == [xs[0]] + xs[1..];
    }
  }

  /** The head of an ascending list is its smallest element, and the tail
      holds everything else. */
  lemma HeadOfIncreasing(xs: seq<nat>)
    requires StrictlyIncreasing(xs) && xs != []
    ensures forall x :: x in xs ==> xs[0] <= x
    ensures forall x :: x in xs[1..] <==> x in xs && x != xs[0]
  {
    forall x | x in xs ensures xs[0] <= x && (x != xs[0] ==> x in xs[1..]) {
      var i :| 0 <= i < |xs| && xs[i] == x;
      if i > 0 {
        assert xs[0] < xs[i] && xs[1..][i - 1] == x;
      }
    }
    forall x | x in xs[1..] ensures x in xs && x != xs[0] {
      var i :| 0 <= i < |xs[1..]| && xs[1..][i] == x;
      assert xs[i + 1] == x && xs[0] < xs[i + 1];
    }
  }

  /** On an ascending list, dropping the header removes exactly its first
      element. */
  lemma DropHeaderSorted(xs: seq<nat>, ignorar: bool)
    requires StrictlyIncreasing(xs)
    ensures DropHeader(xs, ignorar) == if ignorar && xs != [] then xs[1..] else xs
  {
    if ignorar && xs != [] {
      SeqMinIsMin(xs);
      HeadOfIncreasing(xs);
      var m := SeqMin(xs);
      assert m <= xs[0] && xs[0] <= m;
      WithoutSpec(xs, m);
      SortedUnique(Without(xs, m), xs[1..]);
    }
  }

  /** After the header is dropped the sorted sections are still ascending
      and hold every stored row except the smallest one when skipped. */
  lemma DroppedSections(keys: set<nat>, ignorar: bool)
    ensures StrictlyIncreasing(DropHeader(SortedSections(keys), ignorar))
    ensures forall x :: x in DropHeader(SortedSections(keys), ignorar)
                        <==> x in keys && !(ignorar && x == SetMin(keys))
  {
    SortedSectionsSpec(keys);
    DropHeaderOf(SortedSections(keys), keys, ignorar);
  }

  /** The same for any ascending list holding exactly the stored rows. */
  lemma DropHeaderOf(xs: seq<nat>, keys: set<nat>, ignorar: bool)
    requires StrictlyIncreasing(xs) && |xs| == |keys|
    requires forall x :: x in xs <==> x in keys
    ensures StrictlyIncreasing(DropHeader(xs, ignorar))
    ensures forall x :: x in DropHeader(xs, ignorar) <==> x in keys && !(ignorar && x == SetMin(keys))
  {
    DropHeaderSorted(xs, ignorar);
    if ignorar && keys != {} {
      assert xs != [];
      HeadOfIncreasing(xs);
      var m := SetMin(keys);
      assert m in xs && xs[0] in keys;
      assert xs[0] == m;
    }
  }

  /** The bulk selection is the ascending list of eligible rows, cut by the
      Python slice `[:qtd]`. */
  lemma SelectionIsSmallestEligible(keys: set<nat>, qtd: int, inicio: int, ignorar: bool)
    ensures Selecionar(SortedSections(keys), qtd, inicio, ignorar)
         == PySliceTo(SortedSections(Eligible(keys, inicio, ignorar)), qtd)
  {
    var e := Eligible(keys, inicio, ignorar);
    SortedSectionsSpec(e);
    var dropped := DropHeader(SortedSections(keys), ignorar);
    DroppedSections(keys, ignorar);
    AtLeastSpec(dropped, inicio);
    SortedUnique(AtLeast(dropped, inicio), SortedSections(e));
  }

  /** Length of the selection: `min(qtd, |eligible|)` for a non-negative
      `qtd`, and the eligible count less `-qtd` (at least 0) otherwise. */
  lemma SelectionLength(keys: set<nat>, qtd: int, inicio: int, ignorar: bool)
    ensures var n := |Eligible(keys, inicio, ignorar)|;
            |Selecionar(SortedSections(keys), qtd, inicio, ignorar)|
            == if qtd >= 0 then (if qtd <= n then qtd else n)
               else (if n + qtd >= 0 then n + qtd else 0)
  {
    SelectionIsSmallestEligible(keys, qtd, inicio, ignorar);
    SortedSectionsSpec(Eligible(keys, inicio, ignorar));
  }

  /** Every selected row is a stored, eligible row, the list is ascending,
      and any eligible row left out is larger than every selected one. */
  lemma SelectionSound(keys: set<nat>, qtd: int, inicio: int, ignorar: bool)
    ensures var sel := Selecionar(SortedSections(keys), qtd, inicio, ignorar);
            && StrictlyIncreasing(sel)
            && (forall x :: x in sel ==> x in keys && x >= inicio && !(ignorar && x == SetMin(keys)))
            && (forall x, i :: x in Eligible(keys, inicio, ignorar) && x !in sel && 0 <= i < |sel| ==> sel[i] < x)
  {
    var e := Eligible(keys, inicio, ignorar);
    SelectionIsSmallestEligible(keys, qtd, inicio, ignorar);
    SortedSectionsSpec(e);
    PrefixSound(SortedSections(e), e, SliceCount(|SortedSections(e)|, qtd));
  }

  /** A prefix of an ascending list of the elements of `e` is ascending,
      drawn from `e`, and below every element of `e` it leaves out. */
  lemma PrefixSound(all: seq<nat>, e: set<nat>, c: nat)
    requires StrictlyIncreasing(all) && c <= |all|
    requires forall x :: x in all <==> x in e
    ensures StrictlyIncreasing(all[..c])
    ensures forall x :: x in all[..c] ==> x in e
    ensures forall x, i :: x in e && x !in all[..c] && 0 <= i < |all[..c]| ==> all[..c][i] < x
  {
    var sel := all[..c];
    forall x | x in sel ensures x in e {
      var i :| 0 <= i < |sel| && sel[i] == x;
      assert all[i] == x;
    }
    forall x | x in e && x !in sel ensures forall i :: 0 <= i < |sel| ==> sel[i] < x {
      PrefixBelow(all, c, x);
    }
  }

  /** An element of an ascending list that is not among its first `c` is
      larger than all of them. */
  lemma PrefixBelow(all: seq<nat>, c: nat, x: nat)
    requires StrictlyIncreasing(all) && c <= |all| && x in all && x !in all[..c]
    ensures forall i :: 0 <= i < c ==> all[..c][i] < x
  {
    var j :| 0 <= j < |all| && all[j] == x;
    assert forall k :: 0 <= k < c ==> all[k] in all[..c];
    assert c <= j;
  }

  /** The preview shows the same rows as a bulk run over the same store
      whenever the run's start lies at or before every stored row (the bulk
      upload always starts at 1, and row numbers start at 1). */
  lemma PreviewMatchesRun(secoes: seq<nat>, qtd: int, inicio: int, ignorar: bool)
    requires forall x :: x in secoes ==> x >= inicio
    ensures SelecionarPreview(secoes, qtd, ignorar) == Selecionar(secoes, qtd, inicio, ignorar)
  {
    var rest := DropHeader(secoes, ignorar);
    if ignorar && secoes != [] {
      WithoutSpec(secoes, SeqMin(secoes));
    }
    AtLeastAll(rest, inicio);
  }

  /** `total_linhas` of the preview: one row fewer than stored when the
      header is skipped. */
  lemma PreviewTotal(keys: set<nat>, ignorar: bool)
    ensures |DropHeader(SortedSections(keys), ignorar)|
         == if ignorar && keys != {} then |keys| - 1 else |keys|
  {
    SortedSectionsSpec(keys);
    DropHeaderSorted(SortedSections(keys), ignorar);
  }
}
