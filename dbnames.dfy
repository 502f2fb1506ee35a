/**
 * The names under which the callers reach `Database` (db.py:84-132). The
 * class defines `fetch` (one value), `row` (one row), `rows` (all rows, or
 * nothing), `column`, `execute`, `executemany` and `scriptexec`; the callers
 * read through `fetch_one`, `fetch_row` and `fetch_rows`, which it does not
 * define. `Storage.Database` models the reads with the meaning of the three
 * defined methods those names evidently stand for.
 */
module DbNames {
  /** The coroutines `Database` defines (db.py:84-132). */
  const DEFINED: set<string> := {"fetch", "row", "rows", "column", "execute", "executemany", "scriptexec"}

  /**
   * The names the callers use to read: models.py:238, 243, 330, bot.py:86,
   * admin.py:112 and the tag commands of tags.py.
   */
  const CALLED_READS: set<string> := {"fetch_one", "fetch_row", "fetch_rows"}

  /** Python attribute lookup on a `Database` instance, on names only. */
  datatype Lookup = Found(attr: string) | AttributeError(missing: string)

  function Attribute(name: string): (r: Lookup)
    ensures r.Found? <==> name in DEFINED
    ensures r.Found? ==> r.attr == name
  {
    if name in DEFINED then Found(name) else AttributeError(name)
  }

  /** As written, every read the callers make fails before it reaches the pool. */
  lemma ReadsFailAsWritten(name: string)
    requires name in CALLED_READS
    ensures Attribute(name) == AttributeError(name)
  {
    assert name == "fetch_one" || name == "fetch_row" || name == "fetch_rows";
  }

  /** The defined method each read evidently means: one value, one row, all rows. */
  function Intended(name: string): (r: string)
    ensures name in CALLED_READS ==> r in DEFINED && Attribute(r).Found?
    ensures name in DEFINED ==> r == name
    ensures name == "fetch_one" ==> r == "fetch"
    ensures name == "fetch_row" ==> r == "row"
    ensures name == "fetch_rows" ==> r == "rows"
  {
    if name == "fetch_one" then "fetch"
    else if name == "fetch_row" then "row"
    else if name == "fetch_rows" then "rows"
    else name
  }

  /** With the intended names every read the callers make resolves. */
  lemma IntendedReadsResolve(name: string)
    requires name in CALLED_READS
    ensures Attribute(Intended(name)).Found?
    ensures Attribute(Intended(name)).attr in {"fetch", "row", "rows"}
  {
    assert name == "fetch_one" || name == "fetch_row" || name == "fetch_rows";
  }
}
