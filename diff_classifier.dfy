/**
 * The diff classifier: `Counter(line.split(" ")[0] for line in diff_out)`
 * narrowed to the four change kinds the runner reports.
 */
module DiffClassifier {
  import PyText

  /** The dictionary with exactly the keys add, remove, move and update. */
  datatype DiffCounts = DiffCounts(add: nat, remove: nat, move: nat, update: nat)

  const NoChanges := DiffCounts(0, 0, 0, 0)

  function Total(c: DiffCounts): nat {
    c.add + c.remove + c.move + c.update
  }

  /** The change kind a diff line announces: its text before the first space. */
  function Kind(line: string): string {
    PyText.FirstField(line)
  }

  /** The kinds of all lines, in order: the generator fed to `Counter`. */
  function Kinds(lines: seq<string>): (ks: seq<string>)
    ensures |ks| == |lines| && forall i :: 0 <= i < |lines| ==> ks[i] == Kind(lines[i])
  {
    if lines == [] then [] else Kinds(lines[..|lines| - 1]) + [Kind(lines[|lines| - 1])]
  }

  /** Counts one more line of kind `k`; other kinds leave the counts alone. */
  function Tally(c: DiffCounts, k: string): DiffCounts {
    if k == "add" then c.(add := c.add + 1)
    else if k == "remove" then c.(remove := c.remove + 1)
    else if k == "move" then c.(move := c.move + 1)
    else if k == "update" then c.(update := c.update + 1)
    else c
  }

  /** Classifies the captured diff output; unknown kinds are ignored, so the counts never exceed the lines. */
  function Classify(lines: seq<string>): (c: DiffCounts)
    ensures Total(c) <= |lines|
  {
    if lines == [] then NoChanges else Tally(Classify(lines[..|lines| - 1]), Kind(lines[|lines| - 1]))
  }

  /** What one line adds to each count. */
  lemma TallyCounts(c: DiffCounts, k: string)
    ensures var t := Tally(c, k);
      && t.add == c.add + (if k == "add" then 1 else 0)
      && t.remove == c.remove + (if k == "remove" then 1 else 0)
      && t.move == c.move + (if k == "move" then 1 else 0)
      && t.update == c.update + (if k == "update" then 1 else 0)
  {
    assert "add"[0] != "remove"[0] && "add"[0] != "move"[0] && "add"[0] != "update"[0];
    assert "remove"[0] != "move"[0] && "remove"[0] != "update"[0] && "move"[0] != "update"[0];
  }

  /** Each count is the `Counter` entry for its key: how often that kind occurs among the lines. */
  lemma {:induction false} ClassifyIsCounter(lines: seq<string>)
    ensures var c := Classify(lines); var m := multiset(Kinds(lines));
      c.add == m["add"] && c.remove == m["remove"] && c.move == m["move"] && c.update == m["update"]
    decreases |lines|
  {
    if lines != [] {
      var init := lines[..|lines| - 1];
      var k := Kind(lines[|lines| - 1]);
      ClassifyIsCounter(init);
      TallyCounts(Classify(init), k);
      assert Kinds(lines) == Kinds(init) + [k];
      var m0, m := multiset(Kinds(init)), multiset(Kinds(lines));
      assert m == m0 + multiset{k};
      forall w ensures m[w] == m0[w] + (if w == k then 1 else 0) {
      }
    }
  }

  /**
   * A line counts as kind `k` exactly when it is `k` alone or starts with
   * `k` and a space; `"add\n"` as read by `readline` is not an add.
   */
  lemma KindOfLine(line: string, k: string)
    requires k in {"add", "remove", "move", "update"}
    ensures Kind(line) == k <==> (line == k || k + " " <= line)
  {
    PyText.FirstFieldIs(line, k);
  }

  /** Output of the documented scenario, whatever the paths: two adds and one remove. */
  lemma ScenarioCounts(a: string, b: string, c: string)
    ensures Classify(["add " + a, "add " + b, "remove " + c]) == DiffCounts(2, 1, 0, 0)
  {
    var s := ["add " + a, "add " + b, "remove " + c];
    KindOfLine(s[0], "add");
    KindOfLine(s[1], "add");
    KindOfLine(s[2], "remove");
    assert Kinds(s) == ["add", "add", "remove"];
    ClassifyIsCounter(s);
    assert multiset(Kinds(s)) == multiset{"add", "add", "remove"};
    assert "move"[0] != "add"[0] && "move"[0] != "remove"[0];
    assert "update"[0] != "add"[0] && "update"[0] != "remove"[0];
  }

  /** A bare kind followed by the newline `readline` keeps, or an unknown kind, counts nothing. */
  lemma UncountedLines()
    ensures Classify(["add\n", "sync x\n"]) == NoChanges
  {
    var u := ["add\n", "sync x\n"];
    var k0 := Kind(u[0]);
    var k1 := Kind(u[1]);
    assert k0 == u[0] by {
      assert ' ' !in u[0];
      PyText.FirstFieldWhole(u[0]);
    }
    assert k1 == "sync" by {
      PyText.FirstFieldIs(u[1], "sync");
    }
    assert Classify(u[..1]) == Tally(NoChanges, k0) by {
      assert u[..1] == [u[0]] && [u[0]][..0] == [];
    }
    TallyCounts(NoChanges, k0);
    TallyCounts(NoChanges, k1);
  }
}
