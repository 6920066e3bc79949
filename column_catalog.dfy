/**
 * The two PL/pgSQL functions of the column catalog:
 *
 * - `get_columns_except(table, except_columns, prefix)`: the columns of a
 *   table whose name is not excluded, each rendered `prefix.name` (bare `name`
 *   when the prefix is empty), joined with ','.
 * - `get_columns_with_cutin(table, cutoff_column, cutin_columns, prefix)`:
 *   the same enumeration with no exclusions, re-split on ',', with the cut-in
 *   values appended verbatim right after every element equal to the rendered
 *   cutoff.
 *
 * The rows of `information_schema.columns` for the table are the parameter
 * `columns`, in the order the catalog returns them.
 */
module ColumnCatalog {
  import opened ArrayText

  /** `prefix || CASE WHEN prefix = '' THEN '' ELSE '.' END || name` */
  function Render(prefix: string, name: string): string
  {
    prefix + (if prefix == "" then "" else ".") + name
  }

  /** Column names as PostgreSQL stores them are non-empty; these also hold no comma. */
  predicate PlainNames(columns: seq<string>)
  {
    forall i :: 0 <= i < |columns| ==> columns[i] != "" && DELIMITER !in columns[i]
  }

  /** Under one prefix, different names render differently. */
  lemma RenderInjective(prefix: string, a: string, b: string)
    requires Render(prefix, a) == Render(prefix, b)
    ensures a == b
  {
    var k := if prefix == "" then 0 else |prefix| + 1;
    assert Render(prefix, a)[k..] == a;
    assert Render(prefix, b)[k..] == b;
  }

  // ---------------------------------------------------------------------------
  // get_columns_except
  // ---------------------------------------------------------------------------

  /** The array that `get_columns_except`'s SELECT builds before it is joined. */
  function ColumnsExceptList(columns: seq<string>, except: seq<string>, prefix: string): seq<string>
  {
    if columns == [] then []
    else
      (if columns[0] in except then [] else [Render(prefix, columns[0])])
      + ColumnsExceptList(columns[1..], except, prefix)
  }

  /** `get_columns_except(table, except, prefix)`. */
  function ColumnsExcept(columns: seq<string>, except: seq<string>, prefix: string): string
  {
    Join(ColumnsExceptList(columns, except, prefix))
  }

  /**
   * The filter works column by column: the result for a concatenation is the
   * concatenation of the results, so the surviving columns keep their order.
   */
  lemma {:induction false} ExceptConcat(a: seq<string>, b: seq<string>, except: seq<string>, prefix: string)
    ensures ColumnsExceptList(a + b, except, prefix)
         == ColumnsExceptList(a, except, prefix) + ColumnsExceptList(b, except, prefix)
  {
    if a == [] {
      assert a + b == b;
    } else {
      assert (a + b)[0] == a[0];
      assert (a + b)[1..] == a[1..] + b;
      ExceptConcat(a[1..], b, except, prefix);
    }
  }

  /** A name is rendered in the result exactly when it is a column and is not excluded. */
  lemma {:induction false} ExceptMembership(columns: seq<string>, except: seq<string>, prefix: string, name: string)
    ensures Render(prefix, name) in ColumnsExceptList(columns, except, prefix)
       <==> name in columns && name !in except
  {
    if columns != [] {
      ExceptMembership(columns[1..], except, prefix, name);
      if Render(prefix, name) == Render(prefix, columns[0]) {
        RenderInjective(prefix, name, columns[0]);
      }
      assert columns == [columns[0]] + columns[1..];
    }
  }

  /** With an empty exclusion list every column comes back, prefixed, in the same order. */
  lemma {:induction false} ExceptNothing(columns: seq<string>, prefix: string)
    ensures |ColumnsExceptList(columns, [], prefix)| == |columns|
    ensures forall i :: 0 <= i < |columns| ==> ColumnsExceptList(columns, [], prefix)[i] == Render(prefix, columns[i])
  {
    if columns != [] {
      ExceptNothing(columns[1..], prefix);
    }
  }

  /** Excluding names that do not occur changes nothing. */
  lemma {:induction false} ExceptKeepsAll(columns: seq<string>, except: seq<string>, prefix: string)
    requires forall i :: 0 <= i < |columns| ==> columns[i] !in except
    ensures ColumnsExceptList(columns, except, prefix) == ColumnsExceptList(columns, [], prefix)
  {
    if columns != [] {
      ExceptKeepsAll(columns[1..], except, prefix);
    }
  }

  /** Excluding every column leaves nothing. */
  lemma {:induction false} ExceptDropsAll(columns: seq<string>, except: seq<string>, prefix: string)
    requires forall i :: 0 <= i < |columns| ==> columns[i] in except
    ensures ColumnsExceptList(columns, except, prefix) == []
  {
    if columns != [] {
      ExceptDropsAll(columns[1..], except, prefix);
    }
  }

  /**
   * Excluding the first k columns (names that do not recur later) leaves
   * exactly the rest, prefixed, in order.
   */
  lemma ExceptLeadingColumns(columns: seq<string>, k: nat, prefix: string)
    requires k <= |columns|
    requires forall i, j :: 0 <= i < k <= j < |columns| ==> columns[i] != columns[j]
    ensures ColumnsExceptList(columns, columns[..k], prefix) == ColumnsExceptList(columns[k..], [], prefix)
  {
    var except := columns[..k];
    assert columns == except + columns[k..];
    ExceptConcat(except, columns[k..], except, prefix);
    ExceptDropsAll(except, except, prefix);
    forall j | 0 <= j < |columns[k..]| ensures columns[k..][j] !in except {
      assert columns[k..][j] == columns[k + j];
    }
    ExceptKeepsAll(columns[k..], except, prefix);
  }

  /** Rendering plain names under a comma-free prefix gives plain strings. */
  lemma {:induction false} ExceptPlain(columns: seq<string>, except: seq<string>, prefix: string)
    requires PlainNames(columns) && DELIMITER !in prefix
    ensures PlainNames(ColumnsExceptList(columns, except, prefix))
  {
    if columns != [] {
      assert PlainNames(columns[1..]) by {
        forall i | 0 <= i < |columns[1..]| ensures columns[1..][i] == columns[i + 1] { }
      }
      ExceptPlain(columns[1..], except, prefix);
      var r := Render(prefix, columns[0]);
      assert DELIMITER !in r by {
        assert r == prefix + (if prefix == "" then "" else ".") + columns[0];
      }
    }
  }

  lemma PlainIsCommaFree(xs: seq<string>)
    requires PlainNames(xs)
    ensures CommaFree(xs) && xs != [""]
  {
    if |xs| == 1 {
      assert xs[0] != "";
    }
  }

  /** Splitting `get_columns_except`'s string on ',' recovers its list. */
  lemma SplitColumnsExcept(columns: seq<string>, except: seq<string>, prefix: string)
    requires PlainNames(columns) && DELIMITER !in prefix
    ensures Split(ColumnsExcept(columns, except, prefix)) == ColumnsExceptList(columns, except, prefix)
  {
    ExceptPlain(columns, except, prefix);
    PlainIsCommaFree(ColumnsExceptList(columns, except, prefix));
    SplitJoin(ColumnsExceptList(columns, except, prefix));
  }

  // ---------------------------------------------------------------------------
  // get_columns_with_cutin
  // ---------------------------------------------------------------------------

  /** The list with `cutin` appended right after every element equal to `target`. */
  function Cutin(xs: seq<string>, target: string, cutin: seq<string>): seq<string>
  {
    if xs == [] then []
    else [xs[0]] + (if xs[0] == target then cutin else []) + Cutin(xs[1..], target, cutin)
  }

  /** `get_columns_with_cutin(table, cutoff, cutin, prefix)`. */
  function ColumnsWithCutin(columns: seq<string>, cutoff: string, cutin: seq<string>, prefix: string): string
  {
    Join(Cutin(Split(ColumnsExcept(columns, [], prefix)), Render(prefix, cutoff), cutin))
  }

  /** How often `target` occurs in `xs`. */
  function Occurrences(xs: seq<string>, target: string): nat
  {
    if xs == [] then 0 else (if xs[0] == target then 1 else 0) + Occurrences(xs[1..], target)
  }

  /**
   * Removes, after every element equal to `target` that is followed by `cutin`,
   * that copy of `cutin`: the inverse of `Cutin`.
   */
  function Strip(ys: seq<string>, target: string, cutin: seq<string>): seq<string>
    decreases |ys|
  {
    if ys == [] then []
    else if ys[0] == target && 1 + |cutin| <= |ys| && ys[1..1 + |cutin|] == cutin then
      [ys[0]] + Strip(ys[1 + |cutin|..], target, cutin)
    else [ys[0]] + Strip(ys[1..], target, cutin)
  }

  /** `get_columns_with_cutin`'s two nested FOREACH loops over `result_array`. */
  method GetColumnsWithCutin(columns: seq<string>, cutoff: string, cutin: seq<string>, prefix: string)
    returns (r: string)
    ensures r == ColumnsWithCutin(columns, cutoff, cutin, prefix)
  {
    var items := Split(ColumnsExcept(columns, [], prefix));
    var target := Render(prefix, cutoff);
    var result: seq<string> := [];
    var i := 0;
    while i < |items|
      invariant 0 <= i <= |items|
      invariant result == Cutin(items[..i], target, cutin)
    {
      var item := items[i];
      result := result + [item];
      if item == target {
        var j := 0;
        while j < |cutin|
          invariant 0 <= j <= |cutin|
          invariant result == Cutin(items[..i], target, cutin) + [item] + cutin[..j]
        {
          result := result + [cutin[j]];
          j := j + 1;
        }
      }
      CutinConcat(items[..i], [item], target, cutin);
      assert items[..i + 1] == items[..i] + [item];
      i := i + 1;
    }
    assert items[..i] == items;
    r := Join(result);
  }

  lemma {:induction false} CutinConcat(a: seq<string>, b: seq<string>, target: string, cutin: seq<string>)
    ensures Cutin(a + b, target, cutin) == Cutin(a, target, cutin) + Cutin(b, target, cutin)
  {
    if a == [] {
      assert a + b == b;
    } else {
      assert (a + b)[0] == a[0];
      assert (a + b)[1..] == a[1..] + b;
      CutinConcat(a[1..], b, target, cutin);
    }
  }

  /** Every match adds the whole cut-in list, and nothing else is added. */
  lemma {:induction false} CutinLength(xs: seq<string>, target: string, cutin: seq<string>)
    ensures |Cutin(xs, target, cutin)| == |xs| + Occurrences(xs, target) * |cutin|
  {
    if xs != [] {
      CutinLength(xs[1..], target, cutin);
    }
  }

  lemma {:induction false} OccurrencesMembership(xs: seq<string>, target: string)
    ensures Occurrences(xs, target) > 0 <==> target in xs
  {
    if xs != [] {
      OccurrencesMembership(xs[1..], target);
      assert xs == [xs[0]] + xs[1..];
    }
  }

  /**
   * Position law: element i of the input is found at position
   * i + (matches before it) * |cutin| of the output, and when it equals the
   * target the cut-in values follow it verbatim and in order.
   */
  lemma CutinPlacement(xs: seq<string>, target: string, cutin: seq<string>, i: nat)
    requires i < |xs|
    ensures var p := i + Occurrences(xs[..i], target) * |cutin|;
            var out := Cutin(xs, target, cutin);
            p < |out| && out[p] == xs[i]
            && (xs[i] == target ==> p + 1 + |cutin| <= |out| && out[p + 1..p + 1 + |cutin|] == cutin)
  {
    var before, after := xs[..i], xs[i + 1..];
    assert xs == before + [xs[i]] + after;
    CutinConcat(before + [xs[i]], after, target, cutin);
    CutinConcat(before, [xs[i]], target, cutin);
    CutinLength(before, target, cutin);
  }

  /** Removing the insertions gives back the input, in order. */
  lemma {:induction false} CutinStrip(xs: seq<string>, target: string, cutin: seq<string>)
    ensures Strip(Cutin(xs, target, cutin), target, cutin) == xs
  {
    if xs != [] {
      var rest := Cutin(xs[1..], target, cutin);
      CutinStrip(xs[1..], target, cutin);
      var ys := Cutin(xs, target, cutin);
      if xs[0] == target {
        assert ys == [xs[0]] + cutin + rest;
        assert ys[1..1 + |cutin|] == cutin;
        assert ys[1 + |cutin|..] == rest;
      } else {
        assert ys == [xs[0]] + rest;
        assert ys[1..] == rest;
      }
    }
  }

  /** The output equals the input exactly when the cut-in list is empty or nothing matches. */
  lemma CutinIdentity(xs: seq<string>, target: string, cutin: seq<string>)
    ensures Cutin(xs, target, cutin) == xs <==> cutin == [] || target !in xs
  {
    CutinLength(xs, target, cutin);
    OccurrencesMembership(xs, target);
    if cutin == [] || target !in xs {
      CutinUnchanged(xs, target, cutin);
    }
  }

  lemma {:induction false} CutinUnchanged(xs: seq<string>, target: string, cutin: seq<string>)
    requires cutin == [] || target !in xs
    ensures Cutin(xs, target, cutin) == xs
  {
    if xs != [] {
      assert xs == [xs[0]] + xs[1..];
      CutinUnchanged(xs[1..], target, cutin);
    }
  }

  /**
   * With exactly one match, at position k, the cut-in list is spliced in right
   * after it and the length grows by |cutin|.
   */
  lemma CutinSingle(xs: seq<string>, target: string, cutin: seq<string>, k: nat)
    requires k < |xs| && xs[k] == target
    requires target !in xs[..k] && target !in xs[k + 1..]
    ensures Cutin(xs, target, cutin) == xs[..k + 1] + cutin + xs[k + 1..]
    ensures |Cutin(xs, target, cutin)| == |xs| + |cutin|
  {
    var before, after := xs[..k], xs[k + 1..];
    assert xs == before + [xs[k]] + after;
    CutinConcat(before + [xs[k]], after, target, cutin);
    CutinConcat(before, [xs[k]], target, cutin);
    CutinUnchanged(before, target, cutin);
    CutinUnchanged(after, target, cutin);
    assert xs[..k + 1] == before + [xs[k]];
  }

  lemma {:induction false} CutinCommaFree(xs: seq<string>, target: string, cutin: seq<string>)
    requires CommaFree(xs) && CommaFree(cutin)
    ensures CommaFree(Cutin(xs, target, cutin))
  {
    if xs != [] {
      assert CommaFree(xs[1..]) by {
        forall i | 0 <= i < |xs[1..]| ensures xs[1..][i] == xs[i + 1] { }
      }
      CutinCommaFree(xs[1..], target, cutin);
    }
  }

  /**
   * On plain column names and comma-free prefix and cut-in values, the string
   * `get_columns_with_cutin` returns splits into the cut-in enumeration of
   * `get_columns_except(table, [], prefix)`.
   */
  lemma WithCutinSplit(columns: seq<string>, cutoff: string, cutin: seq<string>, prefix: string)
    requires PlainNames(columns) && DELIMITER !in prefix && CommaFree(cutin)
    ensures Split(ColumnsWithCutin(columns, cutoff, cutin, prefix))
         == Cutin(ColumnsExceptList(columns, [], prefix), Render(prefix, cutoff), cutin)
  {
    var xs := ColumnsExceptList(columns, [], prefix);
    SplitColumnsExcept(columns, [], prefix);
    ExceptPlain(columns, [], prefix);
    PlainIsCommaFree(xs);
    var out := Cutin(xs, Render(prefix, cutoff), cutin);
    CutinCommaFree(xs, Render(prefix, cutoff), cutin);
    assert out != [""] by {
      if xs != [] {
        assert out[0] == xs[0] && xs[0] != "";
      }
    }
    SplitJoin(out);
  }

  /**
   * Removing the cut-in insertions from `get_columns_with_cutin`'s list gives
   * exactly `get_columns_except(table, [], prefix)`'s list.
   */
  lemma WithCutinStrip(columns: seq<string>, cutoff: string, cutin: seq<string>, prefix: string)
    requires PlainNames(columns) && DELIMITER !in prefix && CommaFree(cutin)
    ensures Strip(Split(ColumnsWithCutin(columns, cutoff, cutin, prefix)), Render(prefix, cutoff), cutin)
         == ColumnsExceptList(columns, [], prefix)
  {
    WithCutinSplit(columns, cutoff, cutin, prefix);
    CutinStrip(ColumnsExceptList(columns, [], prefix), Render(prefix, cutoff), cutin);
  }

  /**
   * When nothing matches the rendered cutoff, or there is nothing to cut in,
   * `get_columns_with_cutin` returns the plain enumeration.
   */
  lemma WithCutinNoMatch(columns: seq<string>, cutoff: string, cutin: seq<string>, prefix: string)
    requires cutin == [] || Render(prefix, cutoff) !in Split(ColumnsExcept(columns, [], prefix))
    ensures ColumnsWithCutin(columns, cutoff, cutin, prefix) == ColumnsExcept(columns, [], prefix)
  {
    var items := Split(ColumnsExcept(columns, [], prefix));
    CutinIdentity(items, Render(prefix, cutoff), cutin);
    JoinSplit(ColumnsExcept(columns, [], prefix));
  }

  /** The default cutoff `''` never matches a real column, so the default call is the plain enumeration. */
  lemma WithCutinDefaultCutoff(columns: seq<string>, cutin: seq<string>, prefix: string)
    requires PlainNames(columns) && DELIMITER !in prefix
    ensures ColumnsWithCutin(columns, "", cutin, prefix) == ColumnsExcept(columns, [], prefix)
  {
    SplitColumnsExcept(columns, [], prefix);
    ExceptMembership(columns, [], prefix, "");
    assert "" !in columns;
    WithCutinNoMatch(columns, "", cutin, prefix);
  }
}
