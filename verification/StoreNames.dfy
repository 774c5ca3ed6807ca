/**
 * File names inside the blob directory of the image cache, and the two loops of
 * the store that work on those names: the quarantine-name search and the sweep of
 * stale downloads.
 */
module StoreNames {
  import opened Prelude
  import Decimal

  predicate IsLowerHex(c: char) { '0' <= c <= '9' || 'a' <= c <= 'f' }

  predicate IsHex(c: char) { IsLowerHex(c) || 'A' <= c <= 'F' }

  /** A canonical content address: 64 lower-case hexadecimal characters. */
  predicate IsAddress(a: string) { |a| == 64 && forall c <- a :: IsLowerHex(c) }

  function LowerChar(c: char): (r: char)
  {
    if 'A' <= c <= 'Z' then c - 'A' + 'a' else c
  }

  function Lower(s: string): (r: string)
    ensures |r| == |s|
    ensures forall i :: 0 <= i < |s| ==> r[i] == LowerChar(s[i])
  {
    if s == [] then [] else [LowerChar(s[0])] + Lower(s[1..])
  }

  /** normalizeSHA256: the canonical address, or None for the error return. */
  function NormalizeSHA256(sha: string): (r: Option<string>)
    ensures r.Some? <==> |sha| == 64 && forall c <- sha :: IsHex(c)
    ensures r.Some? ==> IsAddress(r.value) && '/' !in r.value && '.' !in r.value
  {
    var s := Lower(sha);
    if |s| == 64 && forall c <- s :: IsLowerHex(c)
    then
      assert forall i :: 0 <= i < |s| ==> IsLowerHex(s[i]) && IsHex(sha[i]);
      Some(s)
    else
      assert |s| == 64 ==> exists i :: 0 <= i < |s| && !IsLowerHex(s[i]) && !IsHex(sha[i]);
      None
  }

  /** Normalising is idempotent and forgets exactly the letter case. */
  lemma NormalizeCanonical(sha: string, other: string)
    ensures NormalizeSHA256(sha).Some? ==>
      NormalizeSHA256(NormalizeSHA256(sha).value) == NormalizeSHA256(sha)
    ensures NormalizeSHA256(sha).Some? && NormalizeSHA256(other).Some? ==>
      (NormalizeSHA256(sha) == NormalizeSHA256(other) <==>
       forall i :: 0 <= i < 64 ==> LowerChar(sha[i]) == LowerChar(other[i]))
  {
    if NormalizeSHA256(sha).Some? {
      var a := NormalizeSHA256(sha).value;
      assert Lower(a) == a by {
        forall i | 0 <= i < 64 ensures Lower(a)[i] == a[i] { assert IsLowerHex(a[i]); }
      }
      if NormalizeSHA256(other).Some? {
        var b := NormalizeSHA256(other).value;
        assert a == b <==> forall i :: 0 <= i < 64 ==> a[i] == b[i];
        assert forall i :: 0 <= i < 64 ==> a[i] == LowerChar(sha[i]) && b[i] == LowerChar(other[i]);
      }
    }
  }

  /** The three kinds of entry the store creates in the blob directory. */
  datatype Name =
    | Blob(addr: string)
    | Temp(serial: nat)
    | Sidecar(addr: string, version: nat)

  predicate ValidName(n: Name) { n.Temp? || IsAddress(n.addr) }

  /** Candidate number `version` of the quarantine search for a blob path. */
  function SidecarText(path: string, version: nat): (s: string)
  {
    if version == 0 then path + ".corrupt" else path + ".corrupt" + "." + Decimal.Itoa(version)
  }

  function FileName(n: Name): (s: string)
  {
    match n
    case Blob(a) => a
    case Temp(k) => "incoming-" + Decimal.Itoa(k)
    case Sidecar(a, v) => SidecarText(a, v)
  }

  lemma SidecarTextInjective(path: string, v: nat, w: nat)
    requires SidecarText(path, v) == SidecarText(path, w)
    ensures v == w
  {
    var base := path + ".corrupt";
    var sv, sw := SidecarText(path, v), SidecarText(path, w);
    assert sv[|base|..] == if v == 0 then "" else "." + Decimal.Itoa(v);
    assert sw[|base|..] == if w == 0 then "" else "." + Decimal.Itoa(w);
    if v != 0 && w != 0 {
      assert sv[|base|..][1..] == Decimal.Itoa(v);
      assert sw[|base|..][1..] == Decimal.Itoa(w);
      Decimal.ValueOfItoa(v);
      Decimal.ValueOfItoa(w);
    }
  }

  /** Distinct entries have distinct file names, so `Name` may stand for the text. */
  lemma FileNameInjective(m: Name, n: Name)
    requires ValidName(m) && ValidName(n)
    requires FileName(m) == FileName(n)
    ensures m == n
  {
    var fm, fn := FileName(m), FileName(n);
    if m.Temp? || n.Temp? {
      if m.Temp? && n.Temp? {
        assert fm[9..] == Decimal.Itoa(m.serial);
        assert fn[9..] == Decimal.Itoa(n.serial);
        Decimal.ValueOfItoa(m.serial);
        Decimal.ValueOfItoa(n.serial);
      } else {
        SweepSeesOnlyTemps(m);
        SweepSeesOnlyTemps(n);
      }
    } else {
      assert fm[..64] == m.addr && fn[..64] == n.addr;
      if m.Sidecar? && n.Sidecar? {
        SidecarTextInjective(m.addr, m.version, n.version);
      }
    }
  }

  predicate IsPrefix(p: string, s: string) { |p| <= |s| && s[..|p|] == p }

  /** The sweep's prefix test picks out the downloads and nothing else. */
  lemma SweepSeesOnlyTemps(n: Name)
    requires ValidName(n)
    ensures IsPrefix("incoming-", FileName(n)) <==> n.Temp?
  {
    if !n.Temp? {
      assert FileName(n)[0] == n.addr[0] && IsLowerHex(n.addr[0]);
      assert "incoming-"[0] == 'i';
    } else {
      assert FileName(n)[..9] == "incoming-";
    }
  }

  /** A set with at least `k` pairwise distinct sidecar names has at least `k` elements. */
  lemma {:induction false} SidecarsCounted(path: string, k: nat, names: set<string>)
    requires forall j :: 0 <= j < k ==> SidecarText(path, j) in names
    ensures k <= |names|
  {
    if k == 0 {
    } else {
      var last := SidecarText(path, k - 1);
      forall j | 0 <= j < k - 1 ensures SidecarText(path, j) in names - {last} {
        if SidecarText(path, j) == last { SidecarTextInjective(path, j, k - 1); }
      }
      SidecarsCounted(path, k - 1, names - {last});
    }
  }

  /** The blob directory as the store's constructor and Verify see it. */
  class BlobDirectory {
    /** File name to file identity, for the regular files of the directory. */
    var files: map<string, nat>

    constructor (files: map<string, nat>)
      ensures this.files == files
    {
      this.files := files;
    }

    /** quarantinePath: the first sidecar name that no file uses. */
    method QuarantinePath(path: string) returns (candidate: string, version: nat)
      ensures candidate == SidecarText(path, version)
      ensures candidate !in files
      ensures forall j :: 0 <= j < version ==> SidecarText(path, j) in files
      ensures version <= |files|
    {
      version := 0;
      candidate := path + ".corrupt";
      while candidate in files
        invariant candidate == SidecarText(path, version)
        invariant forall j :: 0 <= j < version ==> SidecarText(path, j) in files
        decreases |files| - version
      {
        SidecarsCounted(path, version + 1, files.Keys);
        version := version + 1;
        candidate := path + ".corrupt" + "." + Decimal.Itoa(version);
      }
      SidecarsCounted(path, version, files.Keys);
    }

    /**
     * sweepStaleIncoming: removal is attempted for every "incoming-" entry and may
     * fail for those in `stuck`; nothing else is touched.
     */
    method SweepStaleIncoming(stuck: set<string>)
      modifies this
      ensures forall f :: f in files <==> f in old(files) && (IsPrefix("incoming-", f) ==> f in stuck)
      ensures forall f :: f in files ==> files[f] == old(files)[f]
    {
      var entries := files.Keys;
      ghost var done := {};
      while entries != {}
        invariant done + entries == old(files).Keys && done !! entries
        invariant forall f :: f in files <==>
          f in old(files) && (f in done && IsPrefix("incoming-", f) ==> f in stuck)
        invariant forall f :: f in files ==> files[f] == old(files)[f]
        decreases entries
      {
        var e :| e in entries;
        entries := entries - {e};
        done := done + {e};
        if IsPrefix("incoming-", e) && e !in stuck {
          files := files - {e};
        }
      }
    }
  }
}
