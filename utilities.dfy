/** The helpers of the maintained module that sit beside the codec: the
    checksum-algorithm label of `create_checksum`, the choice of PRONOM
    backend in `pronominfo`, and the reading of fido's output. The file
    system, the environment, the search for programs and the programs' runs
    are parameters. */
module Utilities {
  import opened Wrappers
  import opened SeqFacts
  import opened Schema
  import opened Xml

  // ---------------------------------------------------------------------
  // Text
  // ---------------------------------------------------------------------

  /** `str.upper` on one character, for the ASCII letters. */
  function UpperChar(c: char): char
  {
    if 'a' <= c <= 'z' then (c as int - 32) as char else c
  }

  function Upper(s: string): (r: string)
    ensures |r| == |s| && forall i :: 0 <= i < |s| ==> r[i] == UpperChar(s[i])
  {
    seq(|s|, i requires 0 <= i < |s| => UpperChar(s[i]))
  }

  /** No character changes under `Upper`. */
  predicate IsUpper(s: string)
  {
    forall i :: 0 <= i < |s| ==> UpperChar(s[i]) == s[i]
  }

  /** The characters `str.isspace` accepts, which `str.rstrip()` removes. */
  predicate IsSpace(c: char)
  {
    var n := c as int;
    n == 0x20 || 0x09 <= n <= 0x0D || 0x1C <= n <= 0x1F || n == 0x85 || n == 0xA0 || n == 0x1680
    || 0x2000 <= n <= 0x200A || n == 0x2028 || n == 0x2029 || n == 0x202F || n == 0x205F || n == 0x3000
  }

  /** `s.rstrip()`. */
  function Rstrip(s: string): (r: string)
    ensures r <= s
    ensures |r| > 0 ==> !IsSpace(r[|r| - 1])
    ensures forall i :: |r| <= i < |s| ==> IsSpace(s[i])
  {
    if |s| > 0 && IsSpace(s[|s| - 1]) then Rstrip(s[..|s| - 1]) else s
  }

  /** `rstrip` keeps every character up to the last one that is not white
      space. */
  lemma {:induction false} RstripKeeps(s: string, m: nat)
    requires 0 < m <= |s| && !IsSpace(s[m - 1])
    ensures m <= |Rstrip(s)|
    decreases |s|
  {
    if IsSpace(s[|s| - 1]) {
      RstripKeeps(s[..|s| - 1], m);
    }
  }

  /** The first position of `c` in `s`. */
  function IndexOf(s: string, c: char): (i: nat)
    requires c in s
    ensures i < |s| && s[i] == c && c !in s[..i]
  {
    if s[0] == c then 0
    else
      assert c in s[1..] by {
        var k :| 0 <= k < |s| && s[k] == c;
        assert s[1..][k - 1] == c;
      }
      1 + IndexOf(s[1..], c)
  }

  /** `s.split(sep)` for a one-character separator. */
  function Split(s: string, sep: char): (r: seq<string>)
    ensures |r| >= 1 && forall i :: 0 <= i < |r| ==> sep !in r[i]
    decreases |s|
  {
    if sep !in s then [s]
    else
      var i := IndexOf(s, sep);
      [s[..i]] + Split(s[i + 1..], sep)
  }

  /** Splitting loses nothing: joining the pieces gives the string back. */
  lemma {:induction false} SplitJoin(s: string, sep: char)
    ensures Join(Split(s, sep), [sep]) == s
    decreases |s|
  {
    if sep in s {
      var i := IndexOf(s, sep);
      SplitJoin(s[i + 1..], sep);
      assert Split(s, sep)[1..] == Split(s[i + 1..], sep);
      assert s == s[..i] + [sep] + s[i + 1..];
    }
  }

  /** The first piece of a split is the text before the first separator,
      and the second piece follows it after one separator. */
  lemma SplitHead(s: string, sep: char)
    ensures sep in s ==> Split(s, sep)[0] == s[..IndexOf(s, sep)] && |Split(s, sep)| >= 2
    ensures sep in s ==> Split(s, sep)[0] + [sep] + Split(s, sep)[1] <= s
    ensures sep !in s ==> Split(s, sep) == [s]
  {
    FirstPiece(s, sep);
    if sep in s {
      var i := IndexOf(s, sep);
      var rest := s[i + 1..];
      FirstPiece(rest, sep);
      PrefixThrough(s, i, Split(rest, sep)[0]);
    }
  }

  /** A prefix of what follows position `i`, put after `s[..i + 1]`, is a
      prefix of `s`. */
  lemma PrefixThrough<T>(s: seq<T>, i: nat, p: seq<T>)
    requires i < |s| && p <= s[i + 1..]
    ensures s[..i] + [s[i]] + p <= s
  {
    assert s[..i] + [s[i]] + p == s[..i + 1 + |p|];
  }

  /** One unfolding of `Split`: the first piece is a prefix, and the
      second piece is the first piece of the rest. */
  lemma FirstPiece(s: string, sep: char)
    ensures Split(s, sep)[0] <= s
    ensures sep in s ==> var i := IndexOf(s, sep);
      Split(s, sep)[0] == s[..i] && |Split(s, sep)| >= 2 && Split(s, sep)[1] == Split(s[i + 1..], sep)[0]
    ensures sep !in s ==> Split(s, sep) == [s]
  {
    if sep in s {
      var i := IndexOf(s, sep);
      assert Split(s, sep) == [s[..i]] + Split(s[i + 1..], sep);
    }
  }

  // ---------------------------------------------------------------------
  // The checksum-algorithm label
  // ---------------------------------------------------------------------

  /** "SHA" starts at `i`. */
  predicate ShaAt(s: string, i: nat)
  {
    i + 3 <= |s| && s[i] == 'S' && s[i + 1] == 'H' && s[i + 2] == 'A'
  }

  /** "SHA" followed by a digit starts at `i`: where `SHA(\d+)` matches. */
  predicate ShaDigitAt(s: string, i: nat)
  {
    ShaAt(s, i) && i + 3 < |s| && IsDigit(s[i + 3])
  }

  /** The length of the run of digits `s` starts with. */
  function DigitRun(s: string): (n: nat)
    ensures n <= |s| && (forall i :: 0 <= i < n ==> IsDigit(s[i])) && (n < |s| ==> !IsDigit(s[n]))
  {
    if |s| > 0 && IsDigit(s[0]) then 1 + DigitRun(s[1..]) else 0
  }

  /** `re.sub(r"SHA(\d+)", r"SHA-\1", s)`: scanning from the left, each
      match (the letters and the whole run of digits) is replaced by the
      letters, a dash and the digits, and the scan resumes after the digits. */
  function DashSha(s: string): (r: string)
    decreases |s|
  {
    if ShaDigitAt(s, 0) then
      var n := 3 + DigitRun(s[3..]);
      "SHA-" + s[3..n] + DashSha(s[n..])
    else if |s| == 0 then []
    else [s[0]] + DashSha(s[1..])
  }

  /** The label `create_checksum` writes for `algorithm`. */
  function ChecksumLabel(algorithm: string): string
  {
    DashSha(Upper(algorithm))
  }

  /** A prefix without an "S" is copied unchanged. */
  lemma {:induction false} DashCopiesNoS(p: string, t: string)
    requires 'S' !in p
    ensures DashSha(p + t) == p + DashSha(t)
    decreases |p|
  {
    if |p| > 0 {
      assert p[0] in p;
      DashStep(p + t);
      assert (p + t)[1..] == p[1..] + t;
      assert 'S' !in p[1..] by {
        forall i | 0 <= i < |p[1..]| ensures p[1..][i] != 'S' {
          assert p[1..][i] == p[i + 1] && p[i + 1] in p;
        }
      }
      DashCopiesNoS(p[1..], t);
      assert [p[0]] + (p[1..] + DashSha(t)) == p + DashSha(t);
    } else {
      assert p + t == t;
    }
  }

  /** The first character survives the rewrite. */
  lemma DashHead(t: string)
    requires |t| > 0
    ensures |DashSha(t)| > 0 && DashSha(t)[0] == t[0]
  {
  }

  /** Where no "SHA" and digit start, the first character is copied and the
      scan moves on by one. */
  lemma DashStep(t: string)
    requires |t| > 0 && !ShaDigitAt(t, 0)
    ensures DashSha(t) == [t[0]] + DashSha(t[1..])
  {
  }

  /** Normalising twice is normalising once: the output has no "SHA" directly
      followed by a digit left. */
  lemma {:induction false} DashIdempotent(s: string)
    ensures DashSha(DashSha(s)) == DashSha(s)
    decreases |s|
  {
    if ShaDigitAt(s, 0) {
      var n := 3 + DigitRun(s[3..]);
      DashIdempotent(s[n..]);
      MatchRewrittenOnce(s);
    } else if |s| > 0 {
      DashIdempotent(s[1..]);
      CopyRewrittenOnce(s);
    }
  }

  /** The step of `DashIdempotent` at a match. */
  lemma MatchRewrittenOnce(s: string)
    requires ShaDigitAt(s, 0)
    requires var n := 3 + DigitRun(s[3..]); DashSha(DashSha(s[n..])) == DashSha(s[n..])
    ensures DashSha(DashSha(s)) == DashSha(s)
  {
    var n := 3 + DigitRun(s[3..]);
    var digits := s[3..n];
    assert 'S' !in digits by {
      forall i | 0 <= i < |digits| ensures digits[i] != 'S' {
        assert digits[i] == s[3..][i] && IsDigit(s[3..][i]);
      }
    }
    DashedMatchKept(digits, DashSha(s[n..]));
  }

  /** The step of `DashIdempotent` where the first character is copied. */
  lemma CopyRewrittenOnce(s: string)
    requires |s| > 0 && !ShaDigitAt(s, 0)
    requires DashSha(DashSha(s[1..])) == DashSha(s[1..])
    ensures DashSha(DashSha(s)) == DashSha(s)
  {
    NoMatchCreated(s);
    var t := [s[0]] + DashSha(s[1..]);
    DashStep(s);
    DashStep(t);
    assert t[1..] == DashSha(s[1..]);
  }

  /** A rewritten match is not matched again: the dash stands where a digit
      would have to be. */
  lemma DashedMatchKept(digits: string, rest: string)
    requires 'S' !in digits
    ensures DashSha("SHA-" + digits + rest) == "SHA-" + digits + DashSha(rest)
  {
    var p := "HA-" + digits;
    assert 'S' !in p by {
      forall i | 0 <= i < |p| ensures p[i] != 'S' {
        if i >= 3 {
          assert p[i] == digits[i - 3];
        }
      }
    }
    var t := "SHA-" + digits + rest;
    assert t == ['S'] + (p + rest);
    assert !ShaDigitAt(t, 0);
    DashStep(t);
    assert t[1..] == p + rest;
    DashCopiesNoS(p, rest);
  }

  /** Copying the first character of a string that does not start with a
      match cannot create one in front of the rewritten rest. */
  lemma NoMatchCreated(s: string)
    requires |s| > 0 && !ShaDigitAt(s, 0)
    ensures !ShaDigitAt([s[0]] + DashSha(s[1..]), 0)
  {
    var t := [s[0]] + DashSha(s[1..]);
    var u := s[1..];
    if s[0] == 'S' && |u| > 0 && u[0] == 'H' {
      DashStep(u);
      var u2 := u[1..];
      if |u2| > 0 && u2[0] == 'A' {
        DashStep(u2);
        var u3 := u2[1..];
        if |u3| > 0 {
          DashHead(u3);
          assert t[3] == u3[0] == s[3];
        }
      } else if |u2| > 0 {
        DashHead(u2);
      }
    } else if |u| > 0 {
      DashHead(u);
    }
  }

  /** The rewrite adds only dashes, so it keeps an upper-case string upper
      case. */
  lemma {:induction false} DashKeepsUpper(s: string)
    requires IsUpper(s)
    ensures IsUpper(DashSha(s))
    decreases |s|
  {
    if ShaDigitAt(s, 0) {
      var n := 3 + DigitRun(s[3..]);
      DashKeepsUpper(s[n..]);
      var r := DashSha(s);
      forall i | 0 <= i < |r| ensures UpperChar(r[i]) == r[i] {
        if i < 4 {
        } else if i < n + 1 {
          assert r[i] == s[i - 1];
        } else {
          assert r[i] == DashSha(s[n..])[i - n - 1];
        }
      }
    } else if |s| > 0 {
      DashKeepsUpper(s[1..]);
      var r := DashSha(s);
      forall i | 0 <= i < |r| ensures UpperChar(r[i]) == r[i] {
        if i > 0 {
          assert r[i] == DashSha(s[1..])[i - 1];
        }
      }
    }
  }

  /** The label is upper case, and normalising it again changes nothing. */
  lemma ChecksumLabelIdempotent(algorithm: string)
    ensures IsUpper(ChecksumLabel(algorithm))
    ensures ChecksumLabel(ChecksumLabel(algorithm)) == ChecksumLabel(algorithm)
  {
    var u := Upper(algorithm);
    assert IsUpper(u);
    DashKeepsUpper(u);
    var once := DashSha(u);
    assert Upper(once) == once;
    DashIdempotent(u);
  }

  /** `"sha256"` becomes `"SHA-256"`, and a name without "SHA" is only
      upper-cased. */
  lemma ChecksumLabelExamples()
    ensures ChecksumLabel("sha256") == "SHA-256"
    ensures ChecksumLabel("md5") == "MD5"
  {
    Sha256Dashed();
    Md5Unchanged();
  }

  lemma Sha256Dashed()
    ensures ChecksumLabel("sha256") == "SHA-256"
  {
    assert Upper("sha256") == "SHA256";
    var s := "SHA256";
    assert ShaDigitAt(s, 0) && DigitRun(s[3..]) == 3 && s[6..] == [];
    assert DashSha(s) == "SHA-" + "256" + [];
  }

  lemma Md5Unchanged()
    ensures ChecksumLabel("md5") == "MD5"
  {
    assert Upper("md5") == "MD5";
    DashCopiesNoS("MD5", []);
    assert "MD5" + [] == "MD5";
  }

  // ---------------------------------------------------------------------
  // PRONOM detection
  // ---------------------------------------------------------------------

  /** Why `pronominfo` raises. */
  datatype PronomError =
    | NotAFile                   // TypeError: the path is not a file
    | InvalidBackend(name: string) // ValueError: PRONOM_BACKEND names no backend
    | NoBackend                  // RuntimeError: neither program is installed
    | SiegfriedMissing           // RuntimeError: sf chosen but not installed
    | FidoMissing                // RuntimeError: fido chosen but not installed
    | ProcessFailed(code: int)   // CalledProcessError: the program exited non-zero
    | DetectionFailed            // RuntimeError: no match reported
    | MissingField               // IndexError: the match line has too few fields

  datatype Backend = Siegfried | Fido

  /** The backend `pronominfo` runs, given whether the path is a file,
      whether `sf` and `fido` are on the path, and `PRONOM_BACKEND`. */
  function SelectBackend(isFile: bool, sfFound: bool, fidoFound: bool, env: Option<string>): Result<Backend, PronomError>
  {
    if !isFile then Err(NotAFile)
    else if env.Some? && env.value != "fido" && env.value != "siegfried" && env.value != "sf" then
      Err(InvalidBackend(env.value))
    else
      var chosen :- match env
        case Some(name) => Ok(name)
        case None => if sfFound then Ok("sf") else if fidoFound then Ok("fido") else Err(NoBackend);
      if chosen == "sf" || chosen == "siegfried" then
        if sfFound then Ok(Siegfried) else Err(SiegfriedMissing)
      else
        if fidoFound then Ok(Fido) else Err(FidoMissing)
  }

  /** Each outcome of the selection, in both directions: siegfried is the
      default, fido the fallback or an explicit choice, and a backend is
      only ever returned when its program is installed. */
  lemma SelectBackendCases(isFile: bool, sfFound: bool, fidoFound: bool, env: Option<string>)
    ensures !isFile ==> SelectBackend(isFile, sfFound, fidoFound, env) == Err(NotAFile)
    ensures isFile && env.Some? && env.value !in {"fido", "siegfried", "sf"} ==>
      SelectBackend(isFile, sfFound, fidoFound, env) == Err(InvalidBackend(env.value))
    ensures SelectBackend(isFile, sfFound, fidoFound, env) == Ok(Siegfried) <==>
      isFile && sfFound && (env.None? || env == Some("sf") || env == Some("siegfried"))
    ensures SelectBackend(isFile, sfFound, fidoFound, env) == Ok(Fido) <==>
      isFile && fidoFound && (env == Some("fido") || (env.None? && !sfFound))
    ensures SelectBackend(isFile, sfFound, fidoFound, env) == Err(NoBackend) <==>
      isFile && env.None? && !sfFound && !fidoFound
    ensures SelectBackend(isFile, sfFound, fidoFound, env) == Err(SiegfriedMissing) <==>
      isFile && !sfFound && (env == Some("sf") || env == Some("siegfried"))
    ensures SelectBackend(isFile, sfFound, fidoFound, env) == Err(FidoMissing) <==>
      isFile && !fidoFound && env == Some("fido")
  {
  }

  /** What a backend reports: the format as `bestandsformaat` takes it, and
      whether more than one match was reported (a logged warning). */
  datatype Detected = Detected(format: Entity, severalMatches: bool)

  /** `BegripGegevens(begripLabel=formatName, begripCode=code,
      begripBegrippenlijst=VerwijzingGegevens("PRONOM-register"))`. */
  function PronomBegrip(formatName: string, code: string): Entity
  {
    Entity(Begrip, [Str(formatName), Node(Entity(Verwijzing, [Str("PRONOM-register"), Absent])), Str(code)])
  }

  /** `_pronominfo_fido` after the run: a non-zero exit raises (the run is
      made with `check=True`); output starting with "OK" gives the second
      and third comma-separated fields of its first line; anything else
      raises. */
  function FidoResult(returncode: int, stdout: string): Result<Detected, PronomError>
  {
    if returncode != 0 then Err(ProcessFailed(returncode))
    else if !("OK" <= stdout) then Err(DetectionFailed)
    else
      var matches := Split(Rstrip(stdout), '\n');
      var fields := Split(matches[0], ',')[1..];
      if |fields| < 2 then Err(MissingField)
      else Ok(Detected(PronomBegrip(fields[0], fields[1]), |matches| > 1))
  }

  /** A split with a separator in the text: the first piece, then the split
      of what follows the first separator. */
  lemma SplitCons(s: string, sep: char)
    requires sep in s
    ensures var i := IndexOf(s, sep);
      Split(s, sep) == [s[..i]] + Split(s[i + 1..], sep)
      && s == s[..i] + [sep] + s[i + 1..]
  {
    Around(s, IndexOf(s, sep));
  }

  /** The first three pieces of a split, with the separators between them,
      start the text. */
  lemma ThreeFields(line: string, sep: char)
    requires |Split(line, sep)| >= 3
    ensures var ps := Split(line, sep);
      ps[0] + [sep] + (ps[1] + [sep] + ps[2]) <= line
  {
    var ps := Split(line, sep);
    SplitHead(line, sep);
    var i := IndexOf(line, sep);
    var rest := line[i + 1..];
    SplitCons(line, sep);
    var qs := Split(rest, sep);
    assert ps[1] == qs[0] && ps[2] == qs[1];
    SplitHead(rest, sep);
    PrefixThrough(line, i, qs[0] + [sep] + qs[1]);
  }

  /** fido's answer is read exactly when the program succeeded and printed a
      match line with at least three fields; the label and code are the
      second and third fields of that line. */
  lemma FidoResultCases(returncode: int, stdout: string)
    ensures FidoResult(returncode, stdout).Ok? <==>
      returncode == 0 && "OK" <= stdout && |FirstLineFields(stdout)| >= 3
    ensures returncode != 0 ==> FidoResult(returncode, stdout) == Err(ProcessFailed(returncode))
    ensures returncode == 0 && !("OK" <= stdout) ==> FidoResult(returncode, stdout) == Err(DetectionFailed)
    ensures FidoResult(returncode, stdout).Ok? ==>
      var ps := FirstLineFields(stdout);
      FidoResult(returncode, stdout).value.format == PronomBegrip(ps[1], ps[2])
  {
  }

  /** The comma-separated fields of the first line of the stripped output. */
  function FirstLineFields(stdout: string): seq<string>
  {
    Split(Split(Rstrip(stdout), '\n')[0], ',')
  }

  /** The fields fido's answer is read from are as printed: the first starts
      with "OK", and the first three, comma-separated, start the output;
      none holds a comma or a line break. */
  lemma FirstLineFieldsShape(stdout: string)
    requires "OK" <= stdout && |FirstLineFields(stdout)| >= 3
    ensures var ps := FirstLineFields(stdout);
      "OK" <= ps[0]
      && ps[0] + "," + (ps[1] + "," + ps[2]) <= stdout
      && forall i :: 0 <= i < |ps| ==> ',' !in ps[i] && '\n' !in ps[i]
  {
    var stripped := Rstrip(stdout);
    var first := Split(stripped, '\n')[0];
    var ps := Split(first, ',');
    SplitHead(stripped, '\n');
    assert first <= stripped;
    ThreeFields(first, ',');
    var three := ps[0] + [','] + (ps[1] + [','] + ps[2]);
    assert three <= stdout;
    FieldsNoLineBreak(first, ps);
    FirstFieldStartsOk(stdout, ps[0], three);
  }

  lemma FieldsNoLineBreak(first: string, ps: seq<string>)
    requires '\n' !in first && ps == Split(first, ',')
    ensures forall i :: 0 <= i < |ps| ==> '\n' !in ps[i]
  {
    SplitJoin(first, ',');
    forall i | 0 <= i < |ps| ensures '\n' !in ps[i] {
      JoinedPieceIn(ps, ',', i);
    }
  }

  /** Every character of a piece is a character of the joined string. */
  lemma {:induction false} JoinedPieceIn(ps: seq<string>, sep: char, i: nat)
    requires |ps| >= 1 && i < |ps|
    ensures forall c :: c in ps[i] ==> c in Join(ps, [sep])
    decreases |ps|
  {
    if i > 0 {
      JoinedPieceIn(ps[1..], sep, i - 1);
      assert ps[1..][i - 1] == ps[i];
    }
  }

  /** The output starts with "OK" and with the first field followed by a
      comma, so the first field starts with "OK". */
  lemma FirstFieldStartsOk(stdout: string, head: string, three: string)
    requires "OK" <= stdout && three <= stdout && head + [','] <= three
    ensures "OK" <= head
  {
    assert head + [','] <= stdout;
    assert stdout[|head|] == ',';
  }
}
