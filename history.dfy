/** The history strip: the log's timestamps most recent first, one hover summary
    per entry, each built from a query on just that entry. Elapsed-time text, the
    caffeine tables, the remaining-amount computation and number formatting
    belong to the stats library and arrive as the functions of `Utils`. */
module History {
  import opened Types

  /** The stats library as seen from here, each result already as display text. */
  datatype Utils = Utils(
    timeSince: int -> string,        // timeSinceConsumption(Number(key))
    caffeineAmount: string -> string, // getCaffeineAmount(name)
    currentLevel: Log -> string,     // calculateCurrentCaffeineLevel(log)
    numberText: real -> string)      // a number inside a template string

  /** The `TypeError` that `Object.keys(null)` throws, in V8's wording; other
      JavaScript engines word the message differently, and only the failure itself
      is what the component relies on. */
  const NullLogError := "TypeError: Cannot convert undefined or null to object"

  predicate StrictlyDescending(s: seq<int>)
  {
    forall i, j :: 0 <= i < j < |s| ==> s[i] > s[j]
  }

  lemma MaxKeyExists(log: Log)
    requires log != map[]
    ensures exists m :: m in log && forall k :: k in log ==> k <= m
    decreases |log|
  {
    var item :| item in log.Items;
    var y := item.0;
    var rest := log - {y};
    assert forall k :: k in log ==> k == y || k in rest;
    if rest != map[] {
      MaxKeyExists(rest);
      var m :| m in rest && forall k :: k in rest ==> k <= m;
      if y > m {
        assert forall k :: k in log ==> k <= y;
      } else {
        assert forall k :: k in log ==> k <= m;
      }
    }
  }

  /** The most recent timestamp of a non-empty log. */
  function MaxKey(log: Log): (m: int)
    requires log != map[]
    ensures m in log && forall k :: k in log ==> k <= m
  {
    MaxKeyExists(log);
    var m :| m in log && forall k :: k in log ==> k <= m;
    m
  }

  lemma ConsDescending(m: int, rest: seq<int>)
    requires StrictlyDescending(rest)
    requires forall k :: k in rest ==> k < m
    ensures StrictlyDescending([m] + rest)
  {
    forall i, j | 0 <= i < j < |rest| + 1 ensures ([m] + rest)[i] > ([m] + rest)[j] {
      if i == 0 { assert rest[j - 1] in rest; }
    }
  }

  /** `Object.keys(log).sort((a, b) => Number(b) - Number(a))`: every timestamp of
      the log once, most recent first. */
  function Descending(log: Log): (r: seq<int>)
    ensures |r| == |log|
    ensures forall k :: k in r <==> k in log
    ensures StrictlyDescending(r)
    decreases |log|
  {
    if log == map[] then []
    else
      var m := MaxKey(log);
      var older := log - {m};
      assert older.Keys == log.Keys - {m};
      assert |older| == |log| - 1 by { assert |older.Keys| == |log.Keys| - 1; }
      var rest := Descending(older);
      assert forall k :: k in rest ==> k in log && k != m;
      ConsDescending(m, rest);
      [m] + rest
  }

  /** A listing ordered by that comparator is determined by its elements alone, so
      `Descending` is what any correct sort of the keys produces. */
  lemma {:induction false} DescendingUnique(a: seq<int>, b: seq<int>)
    requires StrictlyDescending(a) && StrictlyDescending(b)
    requires forall k :: k in a <==> k in b
    ensures a == b
    decreases |a|
  {
    assert b != [] ==> a != [] by {
      if b != [] { assert b[0] in b; }
    }
    if a != [] {
      assert a[0] in a;
      assert b != [];
      assert b[0] in b;
      HeadIsLargest(a);
      HeadIsLargest(b);
      forall k ensures k in a[1..] <==> k in b[1..] {
        if k in a[1..] {
          var i :| 1 <= i < |a| && a[i] == k;
          assert k < a[0];
          assert k in b;
          var j :| 0 <= j < |b| && b[j] == k;
          assert j != 0;
          assert b[1..][j - 1] == k;
        }
        if k in b[1..] {
          var j :| 1 <= j < |b| && b[j] == k;
          assert k < b[0];
          assert k in a;
          var i :| 0 <= i < |a| && a[i] == k;
          assert i != 0;
          assert a[1..][i - 1] == k;
        }
      }
      DescendingUnique(a[1..], b[1..]);
      assert a == [a[0]] + a[1..] && b == [b[0]] + b[1..];
    }
  }

  lemma HeadIsLargest(s: seq<int>)
    requires StrictlyDescending(s) && s != []
    ensures forall k :: k in s ==> k <= s[0]
  {
  }

  /** The argument of an entry's remaining-amount query, `{[key]: coffee}`: the one
      entry of the log at `key` and nothing else. */
  function Singleton(log: Log, key: int): (r: Log)
    requires key in log
    ensures forall k :: k in r <==> k == key
    ensures forall k :: k in r ==> k in log && r[k] == log[k]
  {
    map[key := log[key]]
  }

  /** The separator of the summary's fields. */
  const Sep := " | "

  /** The summary text `name | elapsed | $cost | remainingmg / originalmg`. */
  function Summary(name: string, elapsed: string, cost: string, remaining: string, original: string): (r: string)
    ensures |r| == |name| + |elapsed| + |cost| + |remaining| + |original| + 3 * |Sep| + 1 + 7
    ensures r[..|name|] == name
    ensures r[|r| - 2..] == "mg"
  {
    name + Sep + elapsed + Sep + "$" + cost + Sep + remaining + "mg / " + original + "mg"
  }

  /** Cuts a text at every `" | "`. */
  function Split(s: string): (r: seq<string>)
    ensures |r| >= 1
    decreases |s|
  {
    if |s| >= 3 && s[..3] == Sep then [""] + Split(s[3..])
    else if s == [] then [""]
    else
      var r := Split(s[1..]);
      [[s[0]] + r[0]] + r[1..]
  }

  lemma {:induction false} SplitPlain(a: string)
    requires '|' !in a
    ensures Split(a) == [a]
    decreases |a|
  {
    if a != [] {
      assert !(|a| >= 3 && a[..3] == Sep) by { if |a| >= 3 { assert a[1] in a; } }
      assert '|' !in a[1..] by { forall c | c in a[1..] ensures c in a { } }
      SplitPlain(a[1..]);
      assert [a[0]] + a[1..] == a;
    }
  }

  lemma {:induction false} SplitField(a: string, rest: string)
    requires '|' !in a
    ensures Split(a + Sep + rest) == [a] + Split(rest)
    decreases |a|
  {
    var s := a + Sep + rest;
    if a == [] {
      assert s == Sep + rest;
      assert s[..3] == Sep;
      assert s[3..] == rest;
    } else {
      assert s[1] != '|' by {
        if |a| >= 2 { assert s[1] == a[1] && a[1] in a; } else { assert s[1] == ' '; }
      }
      assert '|' !in a[1..] by { forall c | c in a[1..] ensures c in a { } }
      assert s[1..] == a[1..] + Sep + rest;
      SplitField(a[1..], rest);
      assert [a[0]] + a[1..] == a;
    }
  }

  /** The summary's four fields can be read back from it by cutting at the separators,
      as long as the texts put into it contain no `|`. */
  lemma SummaryFields(name: string, elapsed: string, cost: string, remaining: string, original: string)
    requires '|' !in name && '|' !in elapsed && '|' !in cost
    requires '|' !in remaining && '|' !in original
    ensures Split(Summary(name, elapsed, cost, remaining, original)) ==
      [name, elapsed, "$" + cost, remaining + "mg / " + original + "mg"]
  {
    var last := remaining + "mg / " + original + "mg";
    assert '|' !in last;
    assert '|' !in "$" + cost;
    assert Summary(name, elapsed, cost, remaining, original) ==
      name + Sep + (elapsed + Sep + (("$" + cost) + Sep + last));
    SplitField(name, elapsed + Sep + (("$" + cost) + Sep + last));
    SplitField(elapsed, ("$" + cost) + Sep + last);
    SplitField("$" + cost, last);
    SplitPlain(last);
  }

  /** The summary of the entry at `key`: its name, the elapsed time of the key, its
      cost, the remaining amount of just that entry and its original amount, which
      can be read back from the row when none of these texts contains a bar. */
  function Row(log: Log, key: int, u: Utils): (r: string)
    requires key in log
    ensures var coffee := log[key];
      var fields := [coffee.name, u.timeSince(key), u.numberText(coffee.cost),
                     u.currentLevel(Singleton(log, key)), u.caffeineAmount(coffee.name)];
      (forall i :: 0 <= i < |fields| ==> '|' !in fields[i]) ==>
        Split(r) == [fields[0], fields[1], "$" + fields[2], fields[3] + "mg / " + fields[4] + "mg"]
  {
    var coffee := log[key];
    var fields := [coffee.name, u.timeSince(key), u.numberText(coffee.cost),
                   u.currentLevel(Singleton(log, key)), u.caffeineAmount(coffee.name)];
    var r := Summary(fields[0], fields[1], fields[2], fields[3], fields[4]);
    if forall i :: 0 <= i < |fields| ==> '|' !in fields[i] then
      assert '|' !in fields[0] && '|' !in fields[1] && '|' !in fields[2];
      assert '|' !in fields[3] && '|' !in fields[4];
      SummaryFields(fields[0], fields[1], fields[2], fields[3], fields[4]);
      r
    else r
  }

  /** The strip for `globalData`: fails for a null log, otherwise one summary per
      entry, in the order of `Descending`. */
  function View(data: Option<Log>, u: Utils): (r: Result<seq<string>, string>)
    ensures r.Failure? <==> data.None?
    ensures r.Failure? ==> r.error == NullLogError
    ensures r.Success? ==> |r.value| == |data.value|
    ensures r.Success? ==> forall i :: 0 <= i < |r.value| ==>
      Descending(data.value)[i] in data.value &&
      r.value[i] == Row(data.value, Descending(data.value)[i], u)
  {
    match data
    case None => Failure(NullLogError)
    case Some(log) =>
      var keys := Descending(log);
      Success(seq(|keys|, i requires 0 <= i < |keys| => Row(log, keys[i], u)))
  }
}
