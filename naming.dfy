/** Names and addresses the upload commands make up before they build a job: the
    job name, the last element of a file path, the `addr:port` text of the local
    file server and the URL the download stage fetches from it. */
module Naming {
  import opened Kube

  // ---------------------------------------------------------------------------
  // Job names
  // ---------------------------------------------------------------------------

  /** The clock reading in the layout "060102-150405": six digits (year, month,
      day), '-', six digits (hour, minute, second). */
  predicate IsStampText(s: string) {
    |s| == 13 && s[6] == '-' &&
    forall i :: 0 <= i < 13 && i != 6 ==> IsDigit(s[i])
  }

  type Stamp = s: string | IsStampText(s) witness "060102-150405"

  predicate IsLowerAlnum(c: char) {
    IsDigit(c) || 'a' <= c <= 'z'
  }

  /** A four-character random suffix; the generator draws lower-case letters and
      digits only. */
  predicate IsSuffixText(s: string) {
    |s| == 4 && forall i :: 0 <= i < 4 ==> IsLowerAlnum(s[i])
  }

  type Suffix = s: string | IsSuffixText(s) witness "bcdf"

  const JobNamePrefix := "cdtool-"

  /** The name of a new job: the prefix, the time stamp, '-', the random suffix. */
  function JobName(ts: Stamp, suffix: Suffix): (r: string)
    ensures |r| == 25
  {
    JobNamePrefix + ts + "-" + suffix
  }

  /** Reads a job name back into its time stamp and suffix. */
  function ParseJobName(s: string): (r: Option<(Stamp, Suffix)>)
    ensures r.Some? ==> |s| == 25 && s[..7] == JobNamePrefix
  {
    if |s| == 25 && s[..7] == JobNamePrefix && s[20] == '-'
       && IsStampText(s[7..20]) && IsSuffixText(s[21..])
    then Some((s[7..20], s[21..]))
    else None
  }

  /** An RFC 1123 label: 1 to 63 characters, lower-case letters, digits and '-',
      starting and ending with a letter or digit. */
  predicate IsDnsLabel(s: string) {
    0 < |s| <= 63 && IsLowerAlnum(s[0]) && IsLowerAlnum(s[|s| - 1]) &&
    forall i :: 0 <= i < |s| ==> IsLowerAlnum(s[i]) || s[i] == '-'
  }

  /** Every job name reads back as the stamp and suffix it was made from. */
  lemma JobNameRoundTrip(ts: Stamp, suffix: Suffix)
    ensures ParseJobName(JobName(ts, suffix)) == Some((ts, suffix))
  {
    var s := JobName(ts, suffix);
    assert s[..7] == JobNamePrefix && s[7..20] == ts && s[20] == '-' && s[21..] == suffix;
  }

  /** A name that reads back was made by `JobName`. */
  lemma ParseJobNameSound(s: string)
    requires ParseJobName(s).Some?
    ensures s == JobName(ParseJobName(s).value.0, ParseJobName(s).value.1)
  {
    assert s == s[..7] + s[7..20] + [s[20]] + s[21..];
  }

  /** Every job name is a valid Kubernetes object name of 25 characters. */
  lemma JobNameIsDnsLabel(ts: Stamp, suffix: Suffix)
    ensures |JobName(ts, suffix)| == 25 && IsDnsLabel(JobName(ts, suffix))
  {
    var s := JobName(ts, suffix);
    forall i | 0 <= i < |s| ensures IsLowerAlnum(s[i]) || s[i] == '-' {
      if i < 7 {
        assert s[i] == JobNamePrefix[i];
      } else if i < 20 {
        assert s[i] == ts[i - 7];
      } else if 20 < i {
        assert s[i] == suffix[i - 21];
      }
    }
    assert s[24] == suffix[3];
  }

  // ---------------------------------------------------------------------------
  // The last element of a slash-separated path
  // ---------------------------------------------------------------------------

  /** `p` without its trailing slashes. */
  function StripTrailingSlashes(p: string): string
  {
    if p != [] && p[|p| - 1] == '/' then StripTrailingSlashes(p[..|p| - 1]) else p
  }

  /** The part of `p` after its last slash (all of `p` when it has none). */
  function AfterLastSlash(p: string): (r: string)
    ensures '/' !in r
  {
    if p == [] || p[|p| - 1] == '/' then [] else AfterLastSlash(p[..|p| - 1]) + [p[|p| - 1]]
  }

  /** The last element of a path, as `filepath.Base` gives it with '/' as the
      separator: "." for the empty path, "/" for a path of slashes only, and
      otherwise the text after the last slash once trailing slashes are gone. */
  function Base(p: string): (r: string)
    ensures p == [] ==> r == "."
    ensures r != []
    ensures '/' in r ==> r == "/"
  {
    if p == [] then "."
    else
      var e := AfterLastSlash(StripTrailingSlashes(p));
      if e == [] then "/" else e
  }

  /** Trailing slashes do not change the last element of a non-empty path. */
  lemma BaseIgnoresTrailingSlash(p: string)
    requires p != []
    ensures Base(p + "/") == Base(p)
  {
    assert (p + "/")[..|p|] == p;
  }

  /** A path of slashes only has "/" as its last element. */
  lemma BaseOfSlashes(p: string)
    requires p != [] && forall i :: 0 <= i < |p| ==> p[i] == '/'
    ensures Base(p) == "/"
  {
    StripSlashesOnly(p);
  }

  /** Stripping the trailing slashes of a path of slashes only leaves nothing. */
  lemma {:induction false} StripSlashesOnly(p: string)
    requires forall i :: 0 <= i < |p| ==> p[i] == '/'
    ensures StripTrailingSlashes(p) == []
  {
    if p != [] {
      StripSlashesOnly(p[..|p| - 1]);
    }
  }

  /** A path with no slash is its own last element. */
  lemma {:induction false} AfterLastSlashPlain(p: string)
    requires '/' !in p
    ensures AfterLastSlash(p) == p
  {
    if p != [] {
      assert '/' !in p[..|p| - 1] by {
        forall k | 0 <= k < |p| - 1 ensures p[k] != '/' {
          assert p[k] in p;
        }
      }
      AfterLastSlashPlain(p[..|p| - 1]);
      assert p == p[..|p| - 1] + [p[|p| - 1]];
    }
  }

  /** The element after a slash is the last element. */
  lemma {:induction false} AfterLastSlashJoin(dir: string, name: string)
    requires '/' !in name
    ensures AfterLastSlash(dir + "/" + name) == name
  {
    if name == [] {
    } else {
      var front := name[..|name| - 1];
      assert '/' !in front by {
        forall k | 0 <= k < |front| ensures front[k] != '/' {
          assert name[k] in name;
        }
      }
      AfterLastSlashJoin(dir, front);
      var s := dir + "/" + name;
      assert s[..|s| - 1] == dir + "/" + front;
      assert name == front + [name[|name| - 1]];
    }
  }

  /** `Base` gives back the last element of a path joined under a directory. */
  lemma BaseOfJoin(dir: string, name: string)
    requires name != [] && '/' !in name
    ensures Base(dir + "/" + name) == name
  {
    var s := dir + "/" + name;
    assert s[|s| - 1] == name[|name| - 1];
    assert StripTrailingSlashes(s) == s;
    AfterLastSlashJoin(dir, name);
  }

  /** A non-empty path without slashes is its own last element. */
  lemma BaseOfPlainName(name: string)
    requires name != [] && '/' !in name
    ensures Base(name) == name
  {
    assert name[|name| - 1] in name;
    AfterLastSlashPlain(name);
  }

  // ---------------------------------------------------------------------------
  // Decimal numerals, ports and the local file server's address
  // ---------------------------------------------------------------------------

  function DigitChar(d: nat): char
    requires d < 10
  {
    "0123456789"[d]
  }

  /** `n` written in decimal, without leading zeros. */
  function Decimal(n: nat): (r: string)
    ensures r != [] && (forall i :: 0 <= i < |r| ==> IsDigit(r[i]))
    ensures |r| > 1 ==> r[0] != '0'
  {
    if n < 10 then [DigitChar(n)] else Decimal(n / 10) + [DigitChar(n % 10)]
  }

  /** The value of a string of decimal digits. */
  function DecimalValue(s: string): nat
    requires forall i :: 0 <= i < |s| ==> IsDigit(s[i])
  {
    if s == [] then 0
    else
      assert IsDigit(s[|s| - 1]);
      10 * DecimalValue(s[..|s| - 1]) + (s[|s| - 1] as int - '0' as int)
  }

  /** Decimal numerals read back as the number they were written from. */
  lemma {:induction false} DecimalRoundTrip(n: nat)
    ensures DecimalValue(Decimal(n)) == n
  {
    if n >= 10 {
      DecimalRoundTrip(n / 10);
      var s := Decimal(n);
      assert s[..|s| - 1] == Decimal(n / 10);
    }
  }

  /** The listen port as Go's `uint16(port)` keeps it: the low 16 bits, so that
      out-of-range settings wrap around instead of failing. */
  function Port16(port: int): (p: nat)
    ensures p < 65536
    ensures 0 <= port < 65536 ==> p == port
    ensures (port - p) % 65536 == 0
  {
    port % 65536
  }

  /** The IP address the local file server listens on. */
  datatype ListenAddr = IPv4(ip: string) | IPv6(ip: string)

  /** An address and a 16-bit port, as `netip.AddrPort` holds them. */
  datatype AddrPort = AddrPort(addr: ListenAddr, port: nat)

  /** `netip.AddrPortFrom(addr, uint16(port))`: the configured port is cut to
      its low 16 bits. */
  function AddrPortFrom(addr: ListenAddr, port: int): (ap: AddrPort)
    ensures ap.addr == addr && ap.port < 65536
    ensures (port - ap.port) % 65536 == 0
    ensures 0 <= port < 65536 ==> ap.port == port
  {
    AddrPort(addr, Port16(port))
  }

  /** The `addr:port` text of an address and port; IPv6 addresses are
      bracketed. */
  function AddrPortText(ap: AddrPort): string {
    match ap.addr
    case IPv4(ip) => ip + ":" + Decimal(ap.port)
    case IPv6(ip) => "[" + ip + "]:" + Decimal(ap.port)
  }

  /** The port part of an `addr:port` text reads back as the port. */
  lemma AddrPortPort(ap: AddrPort)
    ensures var t := AddrPortText(ap); var d := Decimal(ap.port);
      |d| < |t| && t[|t| - |d| - 1] == ':' && t[|t| - |d|..] == d && DecimalValue(d) == ap.port
  {
    DecimalRoundTrip(ap.port);
  }

  /** The URL handed to the download stage for a local file: the server's
      `addr:port` and the file's last element, written as they are, without
      percent-encoding. */
  function LocalSourceURL(ap: AddrPort, file: string): (r: string)
    ensures Base(file) != "/" ==> Base(r) == Base(file)
  {
    var host := "http://" + AddrPortText(ap);
    assert Base(file) != "/" ==> Base(host + "/" + Base(file)) == Base(file) by {
      if Base(file) != "/" {
        BaseOfJoin(host, Base(file));
      }
    }
    host + "/" + Base(file)
  }

  /** Where the local file is copied to: its last element under the temporary
      directory. */
  function CopyTarget(tmpDir: string, file: string): (r: string)
    ensures Base(file) != "/" ==> Base(r) == Base(file)
  {
    assert Base(file) != "/" ==> Base(tmpDir + "/" + Base(file)) == Base(file) by {
      if Base(file) != "/" {
        BaseOfJoin(tmpDir, Base(file));
      }
    }
    tmpDir + "/" + Base(file)
  }

  /** The copy lands directly in the directory the file server is rooted at,
      under the last element of the URL handed to the job. */
  lemma CopyServedUnderURL(tmpDir: string, file: string, ap: AddrPort)
    requires Base(file) != "/"
    ensures CopyTarget(tmpDir, file) == tmpDir + "/" + Base(LocalSourceURL(ap, file))
  {
  }
}
