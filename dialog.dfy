/**
 * `dialog_menu`: the argument list handed to the `dialog` program, with the
 * items in the order `items.sort` gives, and the rule that what `dialog`
 * reports back counts as a choice only when it is one of the item keys.
 */
module Dialog {
  import opened Wrappers

  /** Ruby's `String#<=>` answering -1: a proper prefix, or smaller at the first difference. */
  predicate Before(a: string, b: string)
    decreases |a|
  {
    |b| > 0 && (|a| == 0 || a[0] < b[0] || (a[0] == b[0] && Before(a[1..], b[1..])))
  }

  lemma {:induction false} BeforeAsymmetric(a: string, b: string)
    requires Before(a, b)
    ensures !Before(b, a)
    decreases |a|
  {
    if |a| > 0 && a[0] == b[0] {
      BeforeAsymmetric(a[1..], b[1..]);
    }
  }

  lemma {:induction false} BeforeTransitive(a: string, b: string, c: string)
    requires Before(a, b) && Before(b, c)
    ensures Before(a, c)
    decreases |a|
  {
    if |a| > 0 && a[0] == b[0] && b[0] == c[0] {
      BeforeTransitive(a[1..], b[1..], c[1..]);
    }
  }

  lemma {:induction false} BeforeTotal(a: string, b: string)
    requires a != b
    ensures Before(a, b) || Before(b, a)
    decreases |a|
  {
    if |a| > 0 && |b| > 0 && a[0] == b[0] {
      assert a == [a[0]] + a[1..] && b == [b[0]] + b[1..];
      BeforeTotal(a[1..], b[1..]);
    }
  }

  /** `m` comes before every other element of `s`. */
  predicate IsLeast(m: string, s: set<string>) {
    m in s && forall y :: y in s && y != m ==> Before(m, y)
  }

  lemma {:induction false} LeastExists(s: set<string>)
    requires s != {}
    ensures exists m :: IsLeast(m, s)
    decreases |s|
  {
    var x :| x in s;
    if s - {x} == {} {
      assert s == {x};
      assert IsLeast(x, s);
    } else {
      LeastExists(s - {x});
      var m :| IsLeast(m, s - {x});
      if Before(m, x) {
        assert IsLeast(m, s);
      } else {
        BeforeTotal(m, x);
        forall y | y in s && y != x ensures Before(x, y) {
          if y != m {
            BeforeTransitive(x, m, y);
          }
        }
        assert IsLeast(x, s);
      }
    }
  }

  lemma LeastUnique(m: string, n: string, s: set<string>)
    requires IsLeast(m, s) && IsLeast(n, s)
    ensures m == n
  {
    if m != n {
      BeforeAsymmetric(m, n);
    }
  }

  /** The keys in ascending order, as `items.sort` lists them. */
  ghost function SortedKeys(s: set<string>): (ks: seq<string>)
    ensures |ks| == |s|
    ensures forall i :: 0 <= i < |ks| ==> ks[i] in s
    decreases |s|
  {
    if s == {} then []
    else
      LeastExists(s);
      var m :| IsLeast(m, s);
      [m] + SortedKeys(s - {m})
  }

  predicate StrictlyAscending(ks: seq<string>) {
    forall i, j :: 0 <= i < j < |ks| ==> Before(ks[i], ks[j])
  }

  /** `items.sort` lists every key once, each after all the keys that come before it. */
  lemma {:induction false} SortedKeysSorted(s: set<string>)
    ensures StrictlyAscending(SortedKeys(s))
    ensures forall k :: k in SortedKeys(s) <==> k in s
    decreases |s|
  {
    if s != {} {
      var ks := SortedKeys(s);
      var m := ks[0];
      assert IsLeast(m, s) && ks[1..] == SortedKeys(s - {m});
      SortedKeysSorted(s - {m});
      forall k ensures k in ks <==> k in s {
        assert k in ks <==> k == m || k in ks[1..];
      }
      forall i, j | 0 <= i < j < |ks| ensures Before(ks[i], ks[j]) {
        if i > 0 {
          assert ks[i] == ks[1..][i - 1] && ks[j] == ks[1..][j - 1];
        } else {
          assert ks[j] == ks[1..][j - 1];
        }
      }
    }
  }

  /** `--default-item` first when there is one, then the fixed options, title and text. */
  function MenuHead(title: string, text: string, defaultItem: Option<string>): seq<string> {
    (if defaultItem.Some? then ["--default-item", defaultItem.value] else [])
    + ["--clear", "--no-cancel", "--colors", "--title", title, "--menu", "\n" + text, "30", "110", "30"]
  }

  /** Each key followed by its comment text. */
  function ItemArgs(ks: seq<string>, items: map<string, string>): seq<string>
    requires forall i :: 0 <= i < |ks| ==> ks[i] in items
  {
    if ks == [] then [] else ItemArgs(ks[..|ks| - 1], items) + [ks[|ks| - 1], items[ks[|ks| - 1]]]
  }

  /** The item arguments are the keys in the order given, each followed by its comment. */
  lemma {:induction false} ItemArgsAt(ks: seq<string>, items: map<string, string>)
    requires forall i :: 0 <= i < |ks| ==> ks[i] in items
    ensures |ItemArgs(ks, items)| == 2 * |ks|
    ensures forall i :: 0 <= i < |ks| ==> ItemArgs(ks, items)[2 * i] == ks[i] && ItemArgs(ks, items)[2 * i + 1] == items[ks[i]]
    decreases |ks|
  {
    if ks != [] {
      ItemArgsAt(ks[..|ks| - 1], items);
    }
  }

  /** The least key of a non-empty key set, found by one pass over it. */
  method LeastKey(s: set<string>) returns (m: string)
    requires s != {}
    ensures IsLeast(m, s)
  {
    m :| m in s;
    var rest := s - {m};
    while rest != {}
      invariant rest <= s && m in s && m !in rest
      invariant forall y :: y in s && y !in rest && y != m ==> Before(m, y)
      decreases |rest|
    {
      var y :| y in rest;
      if Before(y, m) {
        forall z | z in s && z !in rest && z != y ensures Before(y, z) {
          if z != m {
            BeforeTransitive(y, m, z);
          }
        }
        m := y;
      } else {
        BeforeTotal(m, y);
      }
      rest := rest - {y};
    }
  }

  /** `items.sort`: the keys in ascending order, taken least first. */
  method SortKeys(items: map<string, string>) returns (ks: seq<string>)
    ensures ks == SortedKeys(items.Keys)
  {
    ks := [];
    var remaining := items.Keys;
    while remaining != {}
      invariant ks + SortedKeys(remaining) == SortedKeys(items.Keys)
      decreases |remaining|
    {
      var m := LeastKey(remaining);
      ghost var sorted := SortedKeys(remaining);
      assert IsLeast(sorted[0], remaining) && sorted[1..] == SortedKeys(remaining - {sorted[0]});
      LeastUnique(m, sorted[0], remaining);
      assert sorted == [m] + SortedKeys(remaining - {m});
      ks := ks + [m];
      remaining := remaining - {m};
    }
  }

  /** `dialog_args` as `dialog_menu` pushes them: the head, then each sorted item's key and comment. */
  method MenuArgs(title: string, text: string, items: map<string, string>, defaultItem: Option<string>)
    returns (args: seq<string>)
    ensures args == MenuHead(title, text, defaultItem) + ItemArgs(SortedKeys(items.Keys), items)
  {
    args := [];
    if defaultItem.Some? {
      args := args + ["--default-item", defaultItem.value];
    }
    args := args + ["--clear", "--no-cancel", "--colors", "--title", title, "--menu", "\n" + text, "30", "110", "30"];
    args := PushItems(args, items);
  }

  /** `items.sort.each {|a| dialog_args.push(a[0], a[1]) }`. */
  method PushItems(head: seq<string>, items: map<string, string>) returns (args: seq<string>)
    ensures args == head + ItemArgs(SortedKeys(items.Keys), items)
  {
    var ks := SortKeys(items);
    args := PushKeys(head, ks, items);
  }

  /** Pushes each key of `ks`, in order, followed by its comment. */
  method PushKeys(head: seq<string>, ks: seq<string>, items: map<string, string>) returns (args: seq<string>)
    requires forall i :: 0 <= i < |ks| ==> ks[i] in items
    ensures args == head + ItemArgs(ks, items)
  {
    args := head;
    var i := 0;
    while i < |ks|
      invariant 0 <= i <= |ks|
      invariant args == head + ItemArgs(ks[..i], items)
    {
      ItemArgsStep(ks, i, items);
      args := args + [ks[i], items[ks[i]]];
      i := i + 1;
    }
    assert ks[..|ks|] == ks;
  }

  lemma ItemArgsStep(ks: seq<string>, i: nat, items: map<string, string>)
    requires i < |ks| && forall j :: 0 <= j < |ks| ==> ks[j] in items
    ensures ItemArgs(ks[..i + 1], items) == ItemArgs(ks[..i], items) + [ks[i], items[ks[i]]]
  {
    assert ks[..i + 1][..i] == ks[..i];
  }

  /**
   * What `dialog_menu` returns for what `dialog` wrote to its temporary file:
   * that text when it is one of the item keys, `nil` otherwise.
   */
  function MenuChoice(items: map<string, string>, reply: string): (r: Option<string>)
    ensures r.Some? ==> r.value in items && r.value == reply
    ensures r.None? <==> reply !in items
  {
    if reply in items then Some(reply) else None
  }
}
