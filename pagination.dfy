/**
 * The embed paginator (utils.py:101-274, and its older copy models.py:44-189):
 * the list of fields cut into pages of `perPage`, the row of five navigation
 * buttons with the rule that disables some of them, and the page index moved
 * by the custom ids of the buttons pressed.
 */
module Pagination {

  /** One embed field: its name and value strings. */
  type Field = seq<string>

  /** `math.ceil(n / p)`: the number of pages `n` fields fill. */
  function CeilDiv(n: nat, p: nat): (r: nat)
    requires p >= 1
    ensures (r - 1) * p < n <= r * p || (n == 0 && r == 0)
  {
    (n + p - 1) / p
  }

  /**
   * The pages `paginate` builds from `s` (utils.py:162-177, models.py:99-114):
   * full pages of `p` fields and then whatever is left, which may be empty.
   */
  function Chunks(s: seq<Field>, p: nat): seq<seq<Field>>
    requires p >= 1
    decreases |s|
  {
    if |s| < p then [s] else [s[..p]] + Chunks(s[p..], p)
  }

  function Flatten(pages: seq<seq<Field>>): seq<Field>
  {
    if pages == [] then [] else pages[0] + Flatten(pages[1..])
  }

  /** Reading the pages in order gives back the fields, all of them and in order. */
  lemma {:induction false} ChunksFlatten(s: seq<Field>, p: nat)
    requires p >= 1
    ensures Flatten(Chunks(s, p)) == s
    decreases |s|
  {
    if |s| >= p {
      var c := Chunks(s, p);
      assert c[1..] == Chunks(s[p..], p);
      ChunksFlatten(s[p..], p);
      assert s == s[..p] + s[p..];
    } else {
      assert Flatten([s]) == s + Flatten([]);
    }
  }

  /**
   * Every page but the last holds exactly `p` fields and the last fewer, so
   * the fields fill `|c| - 1` full pages and leave the last page's worth over.
   */
  lemma {:induction false} ChunksShape(s: seq<Field>, p: nat)
    requires p >= 1
    ensures var c := Chunks(s, p);
      && |c| >= 1
      && (forall i | 0 <= i < |c| - 1 :: |c[i]| == p)
      && |c[|c| - 1]| < p
      && |s| == (|c| - 1) * p + |c[|c| - 1]|
    decreases |s|
  {
    if |s| >= p {
      ChunksShape(s[p..], p);
      var c := Chunks(s, p);
      var d := Chunks(s[p..], p);
      assert c == [s[..p]] + d;
      assert c[|c| - 1] == d[|d| - 1];
      assert (|c| - 1) * p == p + (|d| - 1) * p;
      forall i | 0 <= i < |c| - 1
        ensures |c[i]| == p
      {
        if i > 0 {
          assert c[i] == d[i - 1];
        }
      }
    }
  }

  lemma SmallMultiple(k: int, p: int)
    requires p >= 1 && -p < k * p < p
    ensures k == 0
  {
    if k >= 1 {
      MulMonotone(k, p);
    } else if k <= -1 {
      MulMonotone(-k, p);
    }
  }

  lemma MulMonotone(k: int, p: int)
    requires k >= 1 && p >= 1
    ensures k * p >= p
  {
  }

  /** Euclidean division has one quotient and remainder. */
  lemma DivUnique(n: int, p: int, q: int, r: int)
    requires p >= 1 && 0 <= r < p && n == q * p + r
    ensures n / p == q && n % p == r
  {
    var k := q - n / p;
    assert k * p == n % p - r;
    SmallMultiple(k, p);
  }

  /**
   * `num_pages` against the pages built: `|s| / p` full pages and a last one of
   * `|s| % p` fields, so there are `ceil(|s| / p)` pages plus a trailing empty
   * one exactly when `p` divides `|s|` (including when there are no fields).
   */
  lemma NumPagesAndChunks(s: seq<Field>, p: nat)
    requires p >= 1
    ensures var c := Chunks(s, p);
      && |c| == |s| / p + 1
      && |c[|c| - 1]| == |s| % p
      && |c| == CeilDiv(|s|, p) + (if |s| % p == 0 then 1 else 0)
      && (c[|c| - 1] == [] <==> |s| % p == 0)
      && |c| >= CeilDiv(|s|, p)
  {
    ChunksShape(s, p);
    var c := Chunks(s, p);
    var n, q, r := |s|, |c| - 1, |c[|c| - 1]|;
    DivUnique(n, p, q, r);
    if r == 0 {
      DivUnique(n + p - 1, p, q, p - 1);
    } else {
      assert n + p - 1 == (q + 1) * p + (r - 1);
      DivUnique(n + p - 1, p, q + 1, r - 1);
    }
  }

  /** Adding a field to the list either extends the last page or, when that fills it, opens a new empty one. */
  lemma {:induction false} ChunksSnoc(s: seq<Field>, x: Field, p: nat)
    requires p >= 1
    ensures var c := Chunks(s, p);
            var last := c[|c| - 1];
      Chunks(s + [x], p) ==
        c[..|c| - 1] + (if |last| + 1 == p then [last + [x], []] else [last + [x]])
    decreases |s|
  {
    ChunksShape(s, p);
    if |s| >= p {
      var t := s + [x];
      assert t[..p] == s[..p] && t[p..] == s[p..] + [x];
      ChunksSnoc(s[p..], x, p);
      var d := Chunks(s[p..], p);
      ChunksShape(s[p..], p);
      calc {
        Chunks(t, p);
        [s[..p]] + Chunks(s[p..] + [x], p);
      }
      assert Chunks(s, p)[..|Chunks(s, p)| - 1] == [s[..p]] + d[..|d| - 1];
    } else if |s| + 1 == p {
      assert (s + [x])[..p] == s + [x] && (s + [x])[p..] == [];
    }
  }

  lemma SplitLast<T>(a: seq<T>, x: T, b: seq<T>, c: seq<T>)
    requires a + [x] == b + c && |c| >= 1
    ensures x == c[|c| - 1] && a == b + c[..|c| - 1]
  {
    assert (a + [x])[|a|] == x;
    assert a == (a + [x])[..|a|];
  }

  // ---------------------------------------------------------------- buttons

  /** The five button keys, in the order they appear (utils.py:186-192). */
  const KEYS: seq<string> := ["first", "prev", "stop", "next", "last"]

  /** Their emojis in utils.py. */
  const EMOJIS: seq<string> := ["\U{23EE}\U{FE0F}", "\U{23EA}", "\U{2716}\U{FE0F}", "\U{23E9}", "\U{23ED}\U{FE0F}"]

  /** Their emojis in models.py, which differs only in the stop button. */
  const LEGACY_EMOJIS: seq<string> := ["\U{23EE}\U{FE0F}", "\U{23EA}", "\U{23F9}\U{FE0F}", "\U{23E9}", "\U{23ED}\U{FE0F}"]

  datatype Style = Primary | Danger

  datatype Button = Button(style: Style, customId: string, emoji: string, disabled: bool)

  function CustomId(idHash: string, key: string): string
  {
    idHash + "-" + key
  }

  /** The rule of utils.py:198-203: back buttons off on the first page, forward buttons off on the last. */
  predicate ButtonDisabled(key: string, page: int, numPages: int)
  {
    (page == 0 && (key == "first" || key == "prev"))
    || (page >= numPages - 1 && (key == "last" || key == "next"))
  }

  function MakeButton(idHash: string, key: string, emoji: string, disabled: bool): Button
  {
    Button(if key != "stop" then Primary else Danger, CustomId(idHash, key), emoji, disabled)
  }

  /** The row `generate_buttons` builds, as a function of the page. */
  function ButtonRow(idHash: string, page: int, numPages: int): seq<Button>
  {
    seq(5, i requires 0 <= i < 5 => MakeButton(idHash, KEYS[i], EMOJIS[i], ButtonDisabled(KEYS[i], page, numPages)))
  }

  /** models.py:120-135: the same five buttons, none ever disabled. */
  function LegacyButtonRow(idHash: string): seq<Button>
  {
    seq(5, i requires 0 <= i < 5 => MakeButton(idHash, KEYS[i], LEGACY_EMOJIS[i], false))
  }

  /**
   * The row in full: first, prev, stop, next, last, each with its custom id;
   * first and prev are off exactly on page 0, next and last exactly from page
   * `numPages - 1` on, and stop, the one danger-styled button, never.
   */
  lemma ButtonRowRules(idHash: string, page: int, numPages: int)
    ensures var row := ButtonRow(idHash, page, numPages);
      && |row| == 5
      && (forall i | 0 <= i < 5 :: row[i].customId == CustomId(idHash, KEYS[i]) && row[i].emoji == EMOJIS[i])
      && (row[0].disabled <==> page == 0) && (row[1].disabled <==> page == 0)
      && !row[2].disabled
      && (row[3].disabled <==> page >= numPages - 1) && (row[4].disabled <==> page >= numPages - 1)
      && row[2].style == Danger
      && (forall i | 0 <= i < 5 && i != 2 :: row[i].style == Primary)
  {
    assert KEYS[0] == "first" && KEYS[1] == "prev" && KEYS[2] == "stop" && KEYS[3] == "next" && KEYS[4] == "last";
  }

  /** The older row never disables a button and shows a different stop emoji. */
  lemma LegacyButtonRowRules(idHash: string)
    ensures var row := LegacyButtonRow(idHash);
      && |row| == 5
      && (forall i | 0 <= i < 5 :: !row[i].disabled && row[i].customId == ButtonRow(idHash, 0, 1)[i].customId)
      && (forall i | 0 <= i < 5 && i != 2 :: row[i].emoji == EMOJIS[i])
      && row[2].emoji != EMOJIS[2]
  {
    assert LEGACY_EMOJIS[2][0] != EMOJIS[2][0];
  }

  /** `generate_buttons` (utils.py:185-218): builds the row one button at a time. */
  method GenerateButtons(idHash: string, page: int, numPages: int) returns (row: seq<Button>)
    ensures row == ButtonRow(idHash, page, numPages)
  {
    row := [];
    for i := 0 to 5
      invariant |row| == i
      invariant forall j | 0 <= j < i :: row[j] == ButtonRow(idHash, page, numPages)[j]
    {
      var key := KEYS[i];
      row := row + [MakeButton(idHash, key, EMOJIS[i], ButtonDisabled(key, page, numPages))];
    }
  }

  // ---------------------------------------------------------------- navigation

  /** One pressed button (utils.py:254-269, models.py:170-185); any other custom id leaves the page. */
  function Navigate(page: int, numPages: int, idHash: string, cid: string): int
  {
    if cid == CustomId(idHash, "next") then (if page < numPages - 1 then page + 1 else page)
    else if cid == CustomId(idHash, "prev") then (if page != 0 then page - 1 else page)
    else if cid == CustomId(idHash, "first") then 0
    else if cid == CustomId(idHash, "last") then numPages - 1
    else page
  }

  /** The page after a stream of presses: stop ends the stream, the rest move the page in turn. */
  function ListenFold(page: int, numPages: int, idHash: string, cids: seq<string>): int
    decreases |cids|
  {
    if cids == [] then page
    else if cids[0] == CustomId(idHash, "stop") then page
    else ListenFold(Navigate(page, numPages, idHash, cids[0]), numPages, idHash, cids[1..])
  }

  lemma KeysDistinct(idHash: string)
    ensures forall i, j | 0 <= i < j < 5 :: CustomId(idHash, KEYS[i]) != CustomId(idHash, KEYS[j])
  {
    forall i, j | 0 <= i < j < 5
      ensures CustomId(idHash, KEYS[i]) != CustomId(idHash, KEYS[j])
    {
      var p := idHash + "-";
      assert CustomId(idHash, KEYS[i]) == p + KEYS[i] && CustomId(idHash, KEYS[j]) == p + KEYS[j];
      assert KEYS[i] == (p + KEYS[i])[|p|..];
      assert KEYS[j] == (p + KEYS[j])[|p|..];
    }
  }

  /**
   * Each button's effect: next moves forward only below the last page, prev
   * back only off page 0, first goes to 0 and last to `numPages - 1`; with at
   * least one page, a page in range stays in range.
   */
  lemma NavigateRules(page: int, numPages: int, idHash: string)
    ensures Navigate(page, numPages, idHash, CustomId(idHash, "next")) == if page < numPages - 1 then page + 1 else page
    ensures Navigate(page, numPages, idHash, CustomId(idHash, "prev")) == if page != 0 then page - 1 else page
    ensures Navigate(page, numPages, idHash, CustomId(idHash, "first")) == 0
    ensures Navigate(page, numPages, idHash, CustomId(idHash, "last")) == numPages - 1
    ensures numPages >= 1 && 0 <= page < numPages ==>
              forall cid :: 0 <= Navigate(page, numPages, idHash, cid) < numPages
  {
    KeysDistinct(idHash);
    assert KEYS[0] == "first" && KEYS[1] == "prev" && KEYS[3] == "next" && KEYS[4] == "last";
  }

  /** With at least one page, no stream of presses takes the page out of range. */
  lemma {:induction false} ListenStaysInRange(page: int, numPages: int, idHash: string, cids: seq<string>)
    requires numPages >= 1 && 0 <= page < numPages
    ensures 0 <= ListenFold(page, numPages, idHash, cids) < numPages
    decreases |cids|
  {
    if cids != [] && cids[0] != CustomId(idHash, "stop") {
      NavigateRules(page, numPages, idHash);
      ListenStaysInRange(Navigate(page, numPages, idHash, cids[0]), numPages, idHash, cids[1..]);
    }
  }

  /** Nothing after a stop press has any effect. */
  lemma StopEndsListening(page: int, numPages: int, idHash: string, before: seq<string>, after: seq<string>)
    requires forall i | 0 <= i < |before| :: before[i] != CustomId(idHash, "stop")
    ensures ListenFold(page, numPages, idHash, before + [CustomId(idHash, "stop")] + after)
            == ListenFold(page, numPages, idHash, before)
    decreases |before|
  {
    if before != [] {
      var s := before + [CustomId(idHash, "stop")] + after;
      assert s[1..] == before[1..] + [CustomId(idHash, "stop")] + after;
      StopEndsListening(Navigate(page, numPages, idHash, before[0]), numPages, idHash, before[1..], after);
    } else {
      assert before + [CustomId(idHash, "stop")] + after == [CustomId(idHash, "stop")] + after;
    }
  }

  /** Python's `xs[i]`: negative indices count from the end. */
  predicate PyIndexOk(i: int, len: nat) { -(len as int) <= i < len }

  /**
   * In utils.py only buttons that are not disabled can be pressed. From a page
   * that shows, pressing an enabled button (or anything that is not one of
   * the five) lands on a page that also shows, even with no fields at all.
   */
  lemma {:induction false} EnabledButtonsKeepPageValid(fields: seq<Field>, perPage: nat, page: int, idHash: string, cid: string)
    requires perPage >= 1
    requires 0 <= page < |Chunks(fields, perPage)| && (page <= CeilDiv(|fields|, perPage) - 1 || page == 0)
    requires forall k | k in KEYS :: cid == CustomId(idHash, k) ==> !ButtonDisabled(k, page, CeilDiv(|fields|, perPage))
    ensures var np := Navigate(page, CeilDiv(|fields|, perPage), idHash, cid);
      0 <= np < |Chunks(fields, perPage)| && (np <= CeilDiv(|fields|, perPage) - 1 || np == 0)
  {
    var n := CeilDiv(|fields|, perPage);
    NumPagesAndChunks(fields, perPage);
    NavigateRules(page, n, idHash);
    KeysDistinct(idHash);
    assert KEYS[0] == "first" && KEYS[1] == "prev" && KEYS[3] == "next" && KEYS[4] == "last";
    assert "last" in KEYS && "next" in KEYS && "prev" in KEYS;
  }

  /**
   * models.py's row never disables anything: with no fields there are no
   * pages, yet "last" and then "prev" move the page to -2, and the one (empty)
   * page built cannot be indexed with it.
   */
  lemma LegacyEmptyFieldsExample(idHash: string)
    ensures var n := CeilDiv(0, 5);
            var p := ListenFold(0, n, idHash, [CustomId(idHash, "last"), CustomId(idHash, "prev")]);
      && n == 0 && p == -2
      && |Chunks([], 5)| == 1 && !PyIndexOk(p, |Chunks([], 5)|)
      && !LegacyButtonRow(idHash)[4].disabled && !LegacyButtonRow(idHash)[1].disabled
  {
    NavigateRules(0, 0, idHash);
    NavigateRules(-1, 0, idHash);
    KeysDistinct(idHash);
    assert KEYS[1] == "prev" && KEYS[2] == "stop" && KEYS[4] == "last";
    var cids := [CustomId(idHash, "last"), CustomId(idHash, "prev")];
    assert cids[1..] == [CustomId(idHash, "prev")];
    assert cids[1..][1..] == [];
    assert CustomId(idHash, "last") != CustomId(idHash, "stop") && CustomId(idHash, "prev") != CustomId(idHash, "stop");
    assert ListenFold(0, 0, idHash, cids) == ListenFold(-1, 0, idHash, cids[1..]);
    assert ListenFold(-1, 0, idHash, cids[1..]) == ListenFold(-2, 0, idHash, []);
  }

  // ---------------------------------------------------------------- the class

  /**
   * `utils.Paginator`: the parts of its state that the paging logic reads and
   * writes. `models.Paginator` has the same state, cuts the same pages (into
   * embeds) and moves the page the same way; only its buttons differ
   * (`LegacyButtonRow`).
   */
  class Paginator {
    const fields: seq<Field>
    const perPage: nat
    const numPages: nat
    /** `secrets.token_urlsafe(8)`, taken as given. */
    const idHash: string
    var page: int
    var converted: seq<seq<Field>>

    /** utils.py:120-147. A `perPage` of zero makes `math.ceil(len / 0)` raise, so it is excluded. */
    constructor (fields: seq<Field>, perPage: nat, idHash: string)
      requires perPage >= 1
      ensures this.fields == fields && this.perPage == perPage && this.idHash == idHash
      ensures numPages == CeilDiv(|fields|, perPage)
      ensures page == 0 && converted == []
    {
      this.fields := fields;
      this.perPage := perPage;
      this.idHash := idHash;
      numPages := CeilDiv(|fields|, perPage);
      page := 0;
      converted := [];
    }

    /** The chunking loop of `paginate` (utils.py:162-177). */
    method Paginate()
      requires perPage >= 1
      modifies this`converted
      ensures converted == old(converted) + Chunks(fields, perPage)
    {
      var current := 0;
      var thisList: seq<Field> := [];
      for i := 0 to |fields|
        invariant current == |thisList| < perPage
        invariant converted + [thisList] == old(converted) + Chunks(fields[..i], perPage)
      {
        ghost var c := Chunks(fields[..i], perPage);
        ChunksShape(fields[..i], perPage);
        ChunksSnoc(fields[..i], fields[i], perPage);
        assert fields[..i + 1] == fields[..i] + [fields[i]];
        SplitLast(converted, thisList, old(converted), c);
        thisList := thisList + [fields[i]];
        if current == perPage - 1 {
          converted := converted + [thisList];
          thisList := [];
          current := 0;
          continue;
        }
        current := current + 1;
      }
      assert fields[..|fields|] == fields;
      converted := converted + [thisList];
    }

    /** `listen` (utils.py:242-271) over the custom ids of the presses, in order. */
    method Listen(cids: seq<string>)
      modifies this`page
      ensures page == ListenFold(old(page), numPages, idHash, cids)
    {
      var i := 0;
      while i < |cids|
        invariant 0 <= i <= |cids|
        invariant ListenFold(old(page), numPages, idHash, cids) == ListenFold(page, numPages, idHash, cids[i..])
      {
        assert cids[i..][1..] == cids[i + 1..];
        var cid := cids[i];
        if cid == CustomId(idHash, "stop") {
          break;
        } else if cid == CustomId(idHash, "next") {
          if page < numPages - 1 {
            page := page + 1;
          }
        } else if cid == CustomId(idHash, "prev") {
          if page != 0 {
            page := page - 1;
          }
        } else if cid == CustomId(idHash, "first") {
          page := 0;
        } else if cid == CustomId(idHash, "last") {
          page := numPages - 1;
        }
        i := i + 1;
      }
    }
  }
}
