/**
 * The report buffer pool: two free lists of input-report buffers, one per size. A buffer
 * is reset to the empty-report template when it is handed out and is routed back to the
 * list of its own size when it is returned.
 */
module Pool {
  import opened GoBuiltins

  const StandardSize: nat := 50
  const NfcSize: nat := 363

  /** `emptyInputReport`: the input-report header followed by zeros, as long as the largest report. */
  const EmptyInputReport: seq<bv8> := [0xA1] + Zeros(NfcSize - 1)

  /** `n` zero bytes, what Go's `make` and an array literal's missing elements hold. */
  function Zeros(n: nat): (z: seq<bv8>)
    ensures |z| == n && forall k :: 0 <= k < n ==> z[k] == 0x00
  {
    if n == 0 then [] else Zeros(n - 1) + [0x00]
  }

  /** What a freshly handed-out buffer of length `n` holds. */
  function Template(n: nat): (t: seq<bv8>)
    requires 1 <= n <= NfcSize
    ensures |t| == n && t[0] == 0xA1
    ensures forall k :: 1 <= k < n ==> t[k] == 0x00
  {
    EmptyInputReport[..n]
  }

  /** Copying the template over any buffer up to its length yields the template, whatever the buffer held. */
  lemma ResetIsTemplate(s: seq<bv8>)
    requires 1 <= |s| <= NfcSize
    ensures Copied(s, 0, |s|, EmptyInputReport) == Template(|s|)
  {
    var r := Copied(s, 0, |s|, EmptyInputReport);
    forall k | 0 <= k < |s|
      ensures r[k] == Template(|s|)[k]
    {
    }
  }

  /** The buffer a free list hands out next, as a frame for `modifies`. */
  function Top(free: seq<array<bv8>>): set<array<bv8>> {
    if free == [] then {} else {free[|free| - 1]}
  }

  /** `report` is what the free list `before` hands out, and `after` is what is left: its last buffer, or a new one when it is empty. */
  predicate HandedOut(before: seq<array<bv8>>, after: seq<array<bv8>>, report: array<bv8>) {
    if before == [] then after == [] else after == before[..|before| - 1] && report == before[|before| - 1]
  }

  class ReportPool {
    /** The free standard buffers; the last one is handed out first. */
    var standard: seq<array<bv8>>
    /** The free NFC buffers; the last one is handed out first. */
    var nfc: seq<array<bv8>>

    /** Every free buffer has the size of its list. */
    ghost predicate Valid()
      reads this
    {
      && (forall b :: b in standard ==> b.Length == StandardSize)
      && (forall b :: b in nfc ==> b.Length == NfcSize)
    }

    constructor ()
      ensures Valid() && standard == [] && nfc == []
    {
      standard, nfc := [], [];
    }

    /** `AllocStandardReport`: reuse the last free standard buffer or make a new one, then reset it. */
    method AllocStandardReport() returns (report: array<bv8>)
      requires Valid()
      modifies this, Top(standard)
      ensures Valid() && nfc == old(nfc)
      ensures HandedOut(old(standard), standard, report) && (old(standard) == [] ==> fresh(report))
      ensures report.Length == StandardSize && report[..] == Template(StandardSize)
    {
      if standard == [] {
        report := new bv8[StandardSize];
      } else {
        report := standard[|standard| - 1];
        standard := standard[..|standard| - 1];
      }
      ResetIsTemplate(report[..]);
      CopyInto(report, 0, report.Length, EmptyInputReport);
    }

    /** `AllocNfcReport`: reuse the last free NFC buffer or make a new one, then reset it. */
    method AllocNfcReport() returns (report: array<bv8>)
      requires Valid()
      modifies this, Top(nfc)
      ensures Valid() && standard == old(standard)
      ensures HandedOut(old(nfc), nfc, report) && (old(nfc) == [] ==> fresh(report))
      ensures report.Length == NfcSize && report[..] == Template(NfcSize)
    {
      if nfc == [] {
        report := new bv8[NfcSize];
      } else {
        report := nfc[|nfc| - 1];
        nfc := nfc[..|nfc| - 1];
      }
      ResetIsTemplate(report[..]);
      CopyInto(report, 0, report.Length, EmptyInputReport);
    }

    /** `FreeReport`: route the buffer by its size; a buffer of any other size is dropped. */
    method FreeReport(report: array<bv8>)
      requires Valid()
      modifies this
      ensures Valid()
      ensures report.Length == StandardSize ==> standard == old(standard) + [report] && nfc == old(nfc)
      ensures report.Length == NfcSize ==> nfc == old(nfc) + [report] && standard == old(standard)
      ensures report.Length != StandardSize && report.Length != NfcSize ==>
        standard == old(standard) && nfc == old(nfc)
    {
      if report.Length == StandardSize {
        standard := standard + [report];
      } else if report.Length == NfcSize {
        nfc := nfc + [report];
      }
    }
  }

  /** A standard buffer that is scribbled on, returned and taken again comes back as the template. */
  method ReuseStandardReport(pool: ReportPool, report: array<bv8>, scribble: seq<bv8>) returns (again: array<bv8>)
    requires pool.Valid() && report.Length == StandardSize
    modifies pool, report
    ensures pool.Valid() && pool.standard == old(pool.standard) && pool.nfc == old(pool.nfc)
    ensures again == report && again[..] == Template(StandardSize)
  {
    CopyInto(report, 0, report.Length, scribble);
    pool.FreeReport(report);
    again := pool.AllocStandardReport();
  }

  /** The same for an NFC buffer. */
  method ReuseNfcReport(pool: ReportPool, report: array<bv8>, scribble: seq<bv8>) returns (again: array<bv8>)
    requires pool.Valid() && report.Length == NfcSize
    modifies pool, report
    ensures pool.Valid() && pool.standard == old(pool.standard) && pool.nfc == old(pool.nfc)
    ensures again == report && again[..] == Template(NfcSize)
  {
    CopyInto(report, 0, report.Length, scribble);
    pool.FreeReport(report);
    again := pool.AllocNfcReport();
  }
}
