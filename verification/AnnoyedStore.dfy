/** The store behind the annoyed tool: one row per report fingerprint (extensions/annoyed/store.ts). */
module AnnoyedStore {
  import opened Wrappers

  datatype Status = Judging | Ready | Reserved | Posting | Unresolved | Confirmed
  datatype Verdict = Verdict(scope: string, reason: string)

  /** The row's publication metadata. The same shape is a patch: a field that is None is not in it. */
  datatype Meta = Meta(status: Option<Status>, verdict: Option<Verdict>, destination: Option<string>, marker: Option<string>,
                       url: Option<string>, owner: Option<string>, error: Option<string>)
  const NO_META := Meta(None, None, None, None, None, None, None)

  function Newer<T>(before: Option<T>, next: Option<T>): Option<T> {
    if next.Some? then next else before
  }

  /** The spread of the row's metadata and then the patch. */
  function MergedMetadata(before: Meta, patch: Meta): Meta {
    Meta(Newer(before.status, patch.status), Newer(before.verdict, patch.verdict), Newer(before.destination, patch.destination),
         Newer(before.marker, patch.marker), Newer(before.url, patch.url), Newer(before.owner, patch.owner), Newer(before.error, patch.error))
  }

  /** What an invocation puts into a new row. */
  function Inserted(owner: string): Meta {
    NO_META.(owner := Some(owner))
  }

  predicate MayReserve(m: Meta) {
    m.status == Some(Ready) && m.verdict.Some?
  }

  function Taken(m: Meta, owner: string): Meta {
    m.(owner := Some(owner), status := Some(Reserved))
  }

  datatype Row = Row(meta: Meta, occurrences: nat)

  class Store {
    var rows: map<string, Row>

    constructor ()
      ensures rows == map[]
    {
      rows := map[];
    }

    /** A known fingerprint is counted again and its metadata kept; a new one is inserted. */
    method Upsert(fingerprint: string, metadata: Meta) returns (meta: Meta, duplicate: bool)
      modifies this
      ensures duplicate == (fingerprint in old(rows))
      ensures duplicate ==> rows == old(rows)[fingerprint := old(rows)[fingerprint].(occurrences := old(rows)[fingerprint].occurrences + 1)]
                            && meta == old(rows)[fingerprint].meta
      ensures !duplicate ==> rows == old(rows)[fingerprint := Row(metadata, 1)] && meta == metadata
    {
      if fingerprint in rows {
        var existing := rows[fingerprint];
        rows := rows[fingerprint := existing.(occurrences := existing.occurrences + 1)];
        return existing.meta, true;
      }
      rows := rows[fingerprint := Row(metadata, 1)];
      return metadata, false;
    }

    /** Run without interruption: a new row is reserved by its creator, a ready one with a verdict by whoever asks. */
    method Reserve(fingerprint: string, owner: string) returns (meta: Meta, reserved: bool)
      modifies this
      ensures fingerprint in rows && meta == rows[fingerprint].meta
      ensures forall other | other != fingerprint :: Get(rows, other) == Get(old(rows), other)
      ensures fingerprint !in old(rows) ==> reserved && rows[fingerprint] == Row(Inserted(owner), 1)
      ensures fingerprint in old(rows) ==>
                && reserved == MayReserve(old(rows)[fingerprint].meta)
                && rows[fingerprint].occurrences == old(rows)[fingerprint].occurrences + 1
                && rows[fingerprint].meta == (if reserved then Taken(old(rows)[fingerprint].meta, owner) else old(rows)[fingerprint].meta)
    {
      var duplicate;
      meta, duplicate := Upsert(fingerprint, Inserted(owner));
      reserved := !duplicate;
      if duplicate {
        var row := rows[fingerprint];
        if MayReserve(row.meta) {
          meta, reserved := Taken(row.meta, owner), true;
          rows := rows[fingerprint := row.(meta := meta)];
        }
      }
    }

    method SetMetadata(fingerprint: string, patch: Meta) returns (found: bool)
      modifies this
      ensures found == (fingerprint in old(rows))
      ensures rows == if found then old(rows)[fingerprint := old(rows)[fingerprint].(meta := MergedMetadata(old(rows)[fingerprint].meta, patch))] else old(rows)
    {
      found := fingerprint in rows;
      if found {
        var row := rows[fingerprint];
        rows := rows[fingerprint := row.(meta := MergedMetadata(row.meta, patch))];
      }
    }
  }

  // ----- bounding the transcript -----

  function Sum(sizes: seq<nat>): nat {
    if sizes == [] then 0 else sizes[0] + Sum(sizes[1..])
  }

  /** How many of the most recent entries are kept, given the serialized size of each: the longest run from the end
      that fits the budget. */
  method BoundTranscript(sizes: seq<nat>, budget: nat) returns (kept: nat)
    ensures kept <= |sizes| && Sum(sizes[|sizes| - kept..]) <= budget
    ensures forall from | 0 <= from < |sizes| - kept :: Sum(sizes[from..]) > budget
  {
    kept := 0;
    var used := 0;
    while kept < |sizes|
      invariant kept <= |sizes| && used == Sum(sizes[|sizes| - kept..]) <= budget
    {
      var index := |sizes| - 1 - kept;
      assert sizes[index..][1..] == sizes[index + 1..];
      if used + sizes[index] > budget {
        forall from | 0 <= from <= index ensures Sum(sizes[from..]) > budget {
          LongerIsLarger(sizes, from, index);
        }
        return;
      }
      used := used + sizes[index];
      kept := kept + 1;
    }
  }

  lemma {:induction false} LongerIsLarger(sizes: seq<nat>, from: nat, later: nat)
    requires from <= later <= |sizes|
    ensures Sum(sizes[from..]) >= Sum(sizes[later..])
    decreases later - from
  {
    if from < later {
      assert sizes[from..][1..] == sizes[from + 1..];
      LongerIsLarger(sizes, from + 1, later);
    }
  }
}
