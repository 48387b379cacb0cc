/** The names of pods and services (MXReplicaSet.genName and genPodName), and why they never clash.

A name is four parts glued with dashes: the job name cut to 40 characters, the lower-cased replica
type, the runtime id and the decimal index; a pod name has a fifth, random part. */
module Naming {
  import opened Wrappers

  const SCHEDULER: string := "SCHEDULER"
  const SERVER: string := "SERVER"
  const WORKER: string := "WORKER"

  predicate ValidType(typ: string)
  {
    typ == SCHEDULER || typ == SERVER || typ == WORKER
  }

  // ---------------------------------------------------------------- printing

  const DIGITS: string := "0123456789"

  // fmt.Sprint of a non-negative integer
  function Digits(n: nat): (s: string)
    ensures s != ""
  {
    if n < 10 then [DIGITS[n]] else Digits(n / 10) + [DIGITS[n % 10]]
  }

  // fmt.Sprint of an integer
  function Decimal(i: int): string
  {
    if i < 0 then "-" + Digits(-i) else Digits(i)
  }

  function LowerChar(c: char): char
  {
    if 'A' <= c <= 'Z' then (c as int + 32) as char else c
  }

  // strings.ToLower, on ASCII
  function Lower(s: string): (r: string)
    ensures |r| == |s|
  {
    seq(|s|, i requires 0 <= i < |s| => LowerChar(s[i]))
  }

  // fmt.Sprintf("%.40s", name)
  function Cut40(name: string): string
  {
    if |name| <= 40 then name else name[..40]
  }

  function GenName(job: string, typ: string, rid: string, index: int): string
  {
    Cut40(job) + "-" + (Lower(typ) + "-" + (rid + "-" + Decimal(index)))
  }

  function GenPodName(job: string, typ: string, rid: string, index: int, suffix: string): string
  {
    GenName(job, typ, rid, index) + "-" + suffix
  }

  // ---------------------------------------------------------------- parsing, right to left

  // The text before and after the last dash.
  function SplitLast(s: string): Option<(string, string)>
  {
    if s == "" then None
    else if s[|s| - 1] == '-' then Some((s[..|s| - 1], ""))
    else
      match SplitLast(s[..|s| - 1])
      case None => None
      case Some((front, last)) => Some((front, last + [s[|s| - 1]]))
  }

  function DigitValue(c: char): nat
  {
    if '0' <= c <= '9' then c as nat - '0' as nat else 0
  }

  function ParseDigits(s: string): int
  {
    if s == "" then 0 else 10 * ParseDigits(s[..|s| - 1]) + DigitValue(s[|s| - 1])
  }

  datatype Parts = Parts(job40: string, lowerType: string, rid: string, index: int)

  predicate IsLowerType(s: string)
  {
    s == Lower(SCHEDULER) || s == Lower(SERVER) || s == Lower(WORKER)
  }

  // A name read from the right: index, runtime id, type, and the rest is the job's.  An empty part
  // before the digits is a minus sign, unless a type comes before it: then the runtime id is empty.
  function DecodeName(s: string): Option<Parts>
  {
    match SplitLast(s)
    case None => None
    case Some((front, digits)) =>
      match SplitLast(front)
      case None => None
      case Some((front', rid)) =>
        match SplitLast(front')
        case None => None
        case Some((job40, typ)) =>
          if rid != "" || IsLowerType(typ) then Some(Parts(job40, typ, rid, ParseDigits(digits)))
          else
            match SplitLast(job40)
            case None => None
            case Some((job40', typ')) => Some(Parts(job40', typ', typ, 0 - ParseDigits(digits)))
  }

  // ---------------------------------------------------------------- what is printed

  lemma {:induction false} DigitsPlain(n: nat)
    ensures (forall c <- Digits(n) :: '0' <= c <= '9') && (n > 0 ==> Digits(n)[0] != '0')
  {
    if n >= 10 {
      DigitsPlain(n / 10);
    }
  }

  /** An index is printed in decimal, without leading zeros, and with a minus sign if it is negative. */
  lemma DecimalReads(i: int)
    ensures i >= 0 ==> ParseDigits(Decimal(i)) == i && forall c <- Decimal(i) :: '0' <= c <= '9'
    ensures i > 0 ==> Decimal(i)[0] != '0'
    ensures Decimal(0) == "0" && (i < 0 ==> Decimal(i) == "-" + Decimal(-i))
  {
    if i >= 0 {
      ParseDigitsInverts(i);
      DigitsPlain(i);
    }
  }

  // The role a replica type is told it has, and is named for.
  predicate IsRole(typ: string, role: string)
  {
    || (typ == "SCHEDULER" && role == "scheduler")
    || (typ == "SERVER" && role == "server")
    || (typ == "WORKER" && role == "worker")
  }

  lemma LowerIsRole(typ: string, role: string)
    requires IsRole(typ, role)
    ensures Lower(typ) == role
  {
    LowerTypes();
  }

  /** A name is the first 40 characters of the job's name, or all of a shorter one, the role, the
  runtime id and the index, with dashes between; a pod's name has one more part. */
  lemma NameReads(job: string, typ: string, role: string, rid: string, index: int, suffix: string)
    requires IsRole(typ, role)
    ensures var job40 := job[..if |job| < 40 then |job| else 40];
            GenName(job, typ, rid, index) == job40 + "-" + role + "-" + rid + "-" + Decimal(index)
    ensures GenPodName(job, typ, rid, index, suffix) == GenName(job, typ, rid, index) + "-" + suffix
  {
    LowerIsRole(typ, role);
    var job40 := job[..if |job| < 40 then |job| else 40];
    assert Cut40(job) == job40;
    var d := Decimal(index);
    assert job40 + "-" + role + "-" + rid + "-" + d == job40 + "-" + (role + "-" + (rid + "-" + d));
  }

  // ---------------------------------------------------------------- lemmas on the parts

  lemma {:induction false} SplitLastGlue(front: string, last: string)
    requires '-' !in last
    ensures SplitLast(front + "-" + last) == Some((front, last))
  {
    var s := front + "-" + last;
    if last == "" {
      assert s[..|s| - 1] == front;
    } else {
      var init := last[..|last| - 1];
      SplitLastGlue(front, init);
      assert s[..|s| - 1] == front + "-" + init;
      assert s[|s| - 1] == last[|last| - 1] && last == init + [last[|last| - 1]];
    }
  }

  lemma {:induction false} DigitsHaveNoDash(n: nat)
    ensures '-' !in Digits(n)
  {
    if n >= 10 {
      DigitsHaveNoDash(n / 10);
    }
  }

  lemma {:induction false} ParseDigitsInverts(n: nat)
    ensures ParseDigits(Digits(n)) == n
  {
    if n >= 10 {
      ParseDigitsInverts(n / 10);
      assert Digits(n)[..|Digits(n)| - 1] == Digits(n / 10);
    } else {
      assert Digits(n)[..0] == "";
    }
  }

  lemma NegativeDecimal(i: int)
    requires i < 0
    ensures Decimal(i)[0] == '-' && Decimal(i)[1..] == Digits(-i)
  {}

  lemma {:induction false} DecimalInjective(i: int, k: int)
    requires Decimal(i) == Decimal(k)
    ensures i == k
  {
    DecimalParses(i);
    DecimalParses(k);
  }

  lemma DecimalParses(i: int)
    ensures i < 0 <==> Decimal(i)[0] == '-'
    ensures i == if Decimal(i)[0] == '-' then -ParseDigits(Decimal(i)[1..]) else ParseDigits(Decimal(i))
  {
    if i < 0 {
      NegativeDecimal(i);
      ParseDigitsInverts(-i);
    } else {
      DigitsHaveNoDash(i);
      assert Decimal(i)[0] in Digits(i);
      ParseDigitsInverts(i);
    }
  }

  lemma LowerTypes()
    ensures Lower(SCHEDULER) == "scheduler" && Lower(SERVER) == "server" && Lower(WORKER) == "worker"
  {
    var a, b := Lower(SCHEDULER), "scheduler";
    assert forall i :: 0 <= i < 9 ==> a[i] == b[i];
    var c, d := Lower(SERVER), "server";
    assert forall i :: 0 <= i < 6 ==> c[i] == d[i];
    var e, f := Lower(WORKER), "worker";
    assert forall i :: 0 <= i < 6 ==> e[i] == f[i];
  }

  lemma LowerTypeShape(typ: string)
    requires ValidType(typ)
    ensures '-' !in Lower(typ)
    ensures |Lower(typ)| == if typ == SCHEDULER then 9 else 6
  {
    var low := Lower(typ);
    assert forall i :: 0 <= i < |low| ==> low[i] == LowerChar(typ[i]) && typ[i] in typ;
    assert forall c <- SCHEDULER + SERVER + WORKER :: 'A' <= c <= 'Z';
  }

  lemma LowerTypeInjective(t: string, u: string)
    requires ValidType(t) && ValidType(u) && Lower(t) == Lower(u)
    ensures t == u
  {
    assert Lower(t)[0] == LowerChar(t[0]) && Lower(u)[0] == LowerChar(u[0]);
    assert |t| == |u| && t[0] == u[0];
  }

  lemma LowerTypeIsLowerType(typ: string)
    requires ValidType(typ)
    ensures IsLowerType(Lower(typ))
  {}

  // ---------------------------------------------------------------- unique decoding

  lemma Regroup(a: string, b: string, c: string)
    ensures a + "-" + (b + "-" + c) == (a + "-" + b) + "-" + c
  {}

  lemma DecodeNatural(s: string, j: string, t: string, r: string, n: nat)
    requires '-' !in t && '-' !in r && IsLowerType(t) && s == j + "-" + (t + "-" + (r + "-" + Digits(n)))
    ensures DecodeName(s) == Some(Parts(j, t, r, n))
  {
    var d := Digits(n);
    DigitsHaveNoDash(n);
    ParseDigitsInverts(n);
    Regroup(j, t, r + "-" + d);
    Regroup(j + "-" + t, r, d);
    SplitLastGlue((j + "-" + t) + "-" + r, d);
    SplitLastGlue(j + "-" + t, r);
    SplitLastGlue(j, t);
  }

  lemma DecodeNegative(s: string, j: string, t: string, r: string, n: nat)
    requires '-' !in t && '-' !in r && s == j + "-" + (t + "-" + (r + "-" + ("-" + Digits(n))))
    ensures DecodeName(s)
         == if IsLowerType(r) then Some(Parts(j + "-" + t, r, "", n)) else Some(Parts(j, t, r, 0 - n))
  {
    var d := Digits(n);
    DigitsHaveNoDash(n);
    ParseDigitsInverts(n);
    Regroup(j, t, r + "-" + ("-" + d));
    Regroup(j + "-" + t, r, "-" + d);
    Regroup((j + "-" + t) + "-" + r, "", d);
    assert "" + "-" + d == "-" + d;
    SplitLastGlue(((j + "-" + t) + "-" + r) + "-" + "", d);
    SplitLastGlue((j + "-" + t) + "-" + r, "");
    SplitLastGlue(j + "-" + t, r);
    SplitLastGlue(j, t);
  }

  lemma DecodesNatural(job: string, typ: string, rid: string, n: nat)
    requires ValidType(typ) && '-' !in rid
    ensures DecodeName(GenName(job, typ, rid, n)) == Some(Parts(Cut40(job), Lower(typ), rid, n))
  {
    var j, t := Cut40(job), Lower(typ);
    LowerTypeShape(typ);
    LowerTypeIsLowerType(typ);
    NaturalName(job, typ, rid, n);
    DecodeNatural(GenName(job, typ, rid, n), j, t, rid, n);
  }

  lemma NaturalName(job: string, typ: string, rid: string, n: nat)
    ensures GenName(job, typ, rid, n) == Cut40(job) + "-" + (Lower(typ) + "-" + (rid + "-" + Digits(n)))
  {}

  lemma NegativeName(job: string, typ: string, rid: string, i: int)
    requires i < 0
    ensures GenName(job, typ, rid, i) == Cut40(job) + "-" + (Lower(typ) + "-" + (rid + "-" + ("-" + Digits(-i))))
  {}

  lemma DecodesNegative(job: string, typ: string, rid: string, i: int)
    requires ValidType(typ) && '-' !in rid && i < 0
    ensures DecodeName(GenName(job, typ, rid, i))
         == if IsLowerType(rid) then Some(Parts(Cut40(job) + "-" + Lower(typ), rid, "", -i))
            else Some(Parts(Cut40(job), Lower(typ), rid, i))
  {
    LowerTypeShape(typ);
    NegativeName(job, typ, rid, i);
    DecodeNegative(GenName(job, typ, rid, i), Cut40(job), Lower(typ), rid, -i);
  }

  // What a name is read as, right or wrong.
  lemma DecodesAs(job: string, typ: string, rid: string, index: int)
    requires ValidType(typ) && '-' !in rid
    ensures DecodeName(GenName(job, typ, rid, index))
         == if index < 0 && IsLowerType(rid) then Some(Parts(Cut40(job) + "-" + Lower(typ), rid, "", -index))
            else Some(Parts(Cut40(job), Lower(typ), rid, index))
  {
    if index < 0 {
      DecodesNegative(job, typ, rid, index);
    } else {
      DecodesNatural(job, typ, rid, index);
    }
  }

  /** A name can be read back exactly unless its index is negative and its runtime id is the name of
  a type: always, then, if the id is one that `setup` draws, or empty, or the index is one that
  is created. */
  lemma {:induction false} DecodeGenName(job: string, typ: string, rid: string, index: int)
    requires ValidType(typ) && '-' !in rid
    ensures DecodeName(GenName(job, typ, rid, index)) == Some(Parts(Cut40(job), Lower(typ), rid, index))
       <==> !(index < 0 && IsLowerType(rid))
  {
    DecodesAs(job, typ, rid, index);
  }

  // The name of replica i of a job without a runtime id, and that of replica -i of a job whose name
  // and type are the first one's name, and whose runtime id is the first one's type.
  predicate Mistaken(job: string, typ: string, rid: string, i: int, job': string, typ': string, rid': string, k: int)
  {
    k < 0 && i == -k && rid == "" && rid' == Lower(typ) && Cut40(job) == Cut40(job') + "-" + Lower(typ')
  }

  predicate SameParts(job: string, typ: string, rid: string, i: int, job': string, typ': string, rid': string, k: int)
  {
    Cut40(job) == Cut40(job') && typ == typ' && rid == rid' && i == k
  }

  lemma MistakenNames(job: string, typ: string, rid: string, i: int, job': string, typ': string, rid': string, k: int)
    requires Mistaken(job, typ, rid, i, job', typ', rid', k)
    ensures GenName(job, typ, rid, i) == GenName(job', typ', rid', k)
  {
    var j, t, r, d := Cut40(job'), Lower(typ'), rid', Digits(i);
    Regroup(j, t, r + "-" + ("-" + d));
    assert "" + "-" + d == "-" + d;
  }

  /** Across jobs, types, ids without a dash (empty ones included) and indices: two names are equal
  exactly if all their parts are, or one is mistaken for the other. */
  lemma {:induction false} GenNamesEqualIff(job: string, typ: string, rid: string, i: int,
                                            job': string, typ': string, rid': string, k: int)
    requires ValidType(typ) && '-' !in rid && ValidType(typ') && '-' !in rid'
    ensures GenName(job, typ, rid, i) == GenName(job', typ', rid', k)
       <==> || SameParts(job, typ, rid, i, job', typ', rid', k)
            || Mistaken(job, typ, rid, i, job', typ', rid', k)
            || Mistaken(job', typ', rid', k, job, typ, rid, i)
  {
    if GenName(job, typ, rid, i) == GenName(job', typ', rid', k) {
      DecodesAs(job, typ, rid, i);
      DecodesAs(job', typ', rid', k);
      if i < 0 && IsLowerType(rid) && k < 0 && IsLowerType(rid') {
        LowerTypeShape(typ);
        LowerTypeShape(typ');
        SplitLastGlue(Cut40(job), Lower(typ));
        SplitLastGlue(Cut40(job'), Lower(typ'));
      }
      if Lower(typ) == Lower(typ') {
        LowerTypeInjective(typ, typ');
      }
    } else {
      if Mistaken(job, typ, rid, i, job', typ', rid', k) {
        MistakenNames(job, typ, rid, i, job', typ', rid', k);
      }
      if Mistaken(job', typ', rid', k, job, typ, rid, i) {
        MistakenNames(job', typ', rid', k, job, typ, rid, i);
      }
    }
  }

  /** The names under which services are created never clash: indices are not negative there, and the
  id may be empty, as a failed setup leaves it. */
  lemma {:induction false} CreatedNamesInjective(job: string, typ: string, rid: string, i: nat,
                                                 job': string, typ': string, rid': string, k: nat)
    requires ValidType(typ) && '-' !in rid && ValidType(typ') && '-' !in rid'
    requires GenName(job, typ, rid, i) == GenName(job', typ', rid', k)
    ensures SameParts(job, typ, rid, i, job', typ', rid', k)
  {
    GenNamesEqualIff(job, typ, rid, i, job', typ', rid', k);
  }

  // Two texts glued to dashless heads agree only if heads and texts agree.
  lemma {:induction false} FirstPart(a: string, x: string, b: string, y: string)
    requires '-' !in a && '-' !in b && a + "-" + x == b + "-" + y
    ensures a == b && x == y
  {
    var s, t := a + "-" + x, b + "-" + y;
    assert s[|a|] == '-' && t[|b|] == '-';
    assert |a| == |b|;
    assert a == s[..|a|] && x == s[|a| + 1..] && b == t[..|b|] && y == t[|b| + 1..];
  }

  lemma CancelPrefix(p: string, a: string, b: string)
    requires p + a == p + b
    ensures a == b
  {
    assert a == (p + a)[|p|..] && b == (p + b)[|p|..];
  }

  // The part of a name after the job name and type.
  lemma {:induction false} SameJobSameTail(job: string, rid: string, t: string, x: string, u: string, y: string)
    requires ValidType(t) && ValidType(u)
    requires Cut40(job) + "-" + (Lower(t) + "-" + (rid + "-" + x))
          == Cut40(job) + "-" + (Lower(u) + "-" + (rid + "-" + y))
    ensures t == u && x == y
  {
    LowerTypeShape(t);
    LowerTypeShape(u);
    CancelPrefix(Cut40(job) + "-", Lower(t) + "-" + (rid + "-" + x), Lower(u) + "-" + (rid + "-" + y));
    FirstPart(Lower(t), rid + "-" + x, Lower(u), rid + "-" + y);
    CancelPrefix(rid + "-", x, y);
    LowerTypeInjective(t, u);
  }

  /** Within one job the names are distinct for any runtime id, dashes or not. */
  lemma {:induction false} GenNameInjectiveWithinJob(job: string, rid: string, t: string, i: int, u: string, k: int)
    requires ValidType(t) && ValidType(u)
    requires GenName(job, t, rid, i) == GenName(job, u, rid, k)
    ensures t == u && i == k
  {
    SameJobSameTail(job, rid, t, Decimal(i), u, Decimal(k));
    DecimalInjective(i, k);
  }

  // ---------------------------------------------------------------- pod names are never service names

  lemma IndexAndSuffixIsNoIndex(i: nat, suffix: string, k: int)
    ensures Decimal(i) + "-" + suffix != Decimal(k)
  {
    var d, x, y := Digits(i), Decimal(i) + "-" + suffix, Decimal(k);
    assert x[|d|] == '-' && x[0] == d[0] && d[0] in d;
    DigitsHaveNoDash(i);
    DigitsHaveNoDash(if k < 0 then -k else k);
    assert k >= 0 && |d| < |y| ==> y[|d|] in y;
  }

  /** No pod name of a job is one of the names under which that job looks its pods up. */
  lemma {:induction false} PodNameIsNoGenName(job: string, rid: string, t: string, i: nat, suffix: string, u: string,
                                              k: int)
    requires ValidType(t) && ValidType(u)
    ensures GenPodName(job, t, rid, i, suffix) != GenName(job, u, rid, k)
  {
    var x, y := Decimal(i) + "-" + suffix, Decimal(k);
    assert GenPodName(job, t, rid, i, suffix) == Cut40(job) + "-" + (Lower(t) + "-" + (rid + "-" + x));
    if GenPodName(job, t, rid, i, suffix) == GenName(job, u, rid, k) {
      SameJobSameTail(job, rid, t, x, u, y);
    }
    IndexAndSuffixIsNoIndex(i, suffix, k);
  }

  // The runtime ids a job can have when its user gives none: four letters, or none at all if its
  // setup failed.
  predicate GeneratedId(rid: string)
  {
    '-' !in rid && (|rid| == 4 || rid == "")
  }

  // From the right, a pod name reads: suffix, index, runtime id.
  lemma PodNameFromTheRight(job: string, t: string, rid: string, i: nat, suffix: string)
    requires '-' !in suffix && '-' !in rid
    ensures var s1 := SplitLast(GenPodName(job, t, rid, i, suffix));
            s1.Some? && var s2 := SplitLast(s1.value.0);
            s2 == Some((Cut40(job) + "-" + Lower(t) + "-" + rid, Digits(i))) && s1.value.1 == suffix
            && var s3 := SplitLast(s2.value.0);
            s3 == Some((Cut40(job) + "-" + Lower(t), rid))
  {
    var p3 := Cut40(job) + "-" + Lower(t);
    var p2 := p3 + "-" + rid;
    var p1 := p2 + "-" + Digits(i);
    assert GenPodName(job, t, rid, i, suffix) == p1 + "-" + suffix;
    DigitsHaveNoDash(i);
    SplitLastGlue(p1, suffix);
    SplitLastGlue(p2, Digits(i));
    SplitLastGlue(p3, rid);
  }

  // From the right, a service name reads: digits, then nothing (a minus sign) or the runtime id and the type.
  lemma SplitEmptyPart(q: string, d: string)
    requires '-' !in d
    ensures var s1 := SplitLast((q + "-" + "") + "-" + d);
            s1.Some? && var s2 := SplitLast(s1.value.0);
            s2.Some? && s2.value.1 == ""
  {
    SplitLastGlue(q + "-" + "", d);
    SplitLastGlue(q, "");
  }

  lemma SplitDashedEnd(a: string, b: string, c: string, d: string)
    requires '-' !in d
    ensures var s1 := SplitLast(a + "-" + (b + "-" + (c + "-" + ("-" + d))));
            s1.Some? && var s2 := SplitLast(s1.value.0);
            s2.Some? && s2.value.1 == ""
  {
    var q := a + "-" + b + "-" + c;
    Regroup(a, b, c + "-" + ("-" + d));
    Regroup(a + "-" + b, c, "-" + d);
    Regroup(q, "", d);
    assert "" + "-" + d == "-" + d;
    SplitEmptyPart(q, d);
  }

  lemma NegativeGenNameFromTheRight(job: string, u: string, rid: string, k: int)
    requires k < 0
    ensures var s1 := SplitLast(GenName(job, u, rid, k));
            s1.Some? && var s2 := SplitLast(s1.value.0);
            s2.Some? && s2.value.1 == ""
  {
    DigitsHaveNoDash(-k);
    SplitDashedEnd(Cut40(job), Lower(u), rid, Digits(-k));
  }

  lemma GenNameFromTheRight(job: string, u: string, rid: string, k: nat)
    requires '-' !in Lower(u) && '-' !in rid
    ensures var s1 := SplitLast(GenName(job, u, rid, k));
            s1.Some? && var s2 := SplitLast(s1.value.0);
            s2.Some? && s2.value.1 == rid && SplitLast(s2.value.0) == Some((Cut40(job), Lower(u)))
  {
    var q3 := Cut40(job) + "-" + Lower(u);
    var q2 := q3 + "-" + rid;
    assert GenName(job, u, rid, k) == q2 + "-" + Digits(k);
    DigitsHaveNoDash(k);
    SplitLastGlue(q2, Digits(k));
    SplitLastGlue(q3, rid);
    SplitLastGlue(Cut40(job), Lower(u));
  }

  /** With generated runtime ids this holds across jobs too. */
  lemma {:induction false} PodNameIsNoGenNameOfAnyJob(job: string, t: string, rid: string, i: nat, suffix: string,
                                                      job': string, u: string, rid': string, k: int)
    requires ValidType(t) && ValidType(u) && GeneratedId(rid) && GeneratedId(rid')
    requires '-' !in suffix
    ensures GenPodName(job, t, rid, i, suffix) != GenName(job', u, rid', k)
  {
    PodNameFromTheRight(job, t, rid, i, suffix);
    LowerTypeShape(u);
    if k < 0 {
      NegativeGenNameFromTheRight(job', u, rid', k);
    } else {
      GenNameFromTheRight(job', u, rid', k);
    }
  }

  // ---------------------------------------------------------------- length (section 2.3.4 of RFC 1035)

  const MAX_LABEL := 63

  function Pow10(k: nat): nat
  {
    if k == 0 then 1 else 10 * Pow10(k - 1)
  }

  lemma {:induction false} DigitsLength(n: nat, k: nat)
    requires k > 0
    ensures |Digits(n)| <= k <==> n < Pow10(k)
    decreases k
  {
    assert Pow10(k) == 10 * Pow10(k - 1);
    if k == 1 {
      assert Pow10(0) == 1;
    } else if n >= 10 {
      DigitsLength(n / 10, k - 1);
    } else {
      PowPositive(k - 1);
    }
  }

  lemma {:induction false} PowPositive(k: nat)
    ensures Pow10(k) >= 1
  {
    if k > 0 {
      PowPositive(k - 1);
    }
  }

  lemma Powers()
    ensures Pow10(1) == 10 && Pow10(4) == 10000 && Pow10(10) == 10000000000
  {
    assert Pow10(2) == 100 && Pow10(3) == 1000 && Pow10(5) == 100000 && Pow10(6) == 1000000
        && Pow10(7) == 10000000 && Pow10(8) == 100000000 && Pow10(9) == 1000000000;
  }

  /** Service names fit for every index SyncServices can reach: any int32 for servers and workers,
  0 for the scheduler, which must have one replica. */
  lemma {:induction false} ServiceNameFits(job: string, typ: string, rid: string, index: nat)
    requires ValidType(typ) && |rid| == 4 && index < 0x8000_0000
    requires typ == SCHEDULER ==> index == 0
    ensures |GenName(job, typ, rid, index)| <= MAX_LABEL
  {
    LowerTypeShape(typ);
    Powers();
    DigitsLength(index, 10);
    DigitsLength(index, 1);
  }

  /** Pod names of servers and workers fit exactly up to index 9999 once the job name fills its 40
  characters; the scheduler's always fits, with nothing to spare. */
  lemma {:induction false} PodNameFits(job: string, typ: string, rid: string, index: nat, suffix: string)
    requires ValidType(typ) && |rid| == 4 && |suffix| == 5 && |job| >= 40
    requires typ == SCHEDULER ==> index == 0
    ensures |GenPodName(job, typ, rid, index, suffix)| <= MAX_LABEL <==> index < 10000
    ensures typ == SCHEDULER ==> |GenPodName(job, typ, rid, index, suffix)| == MAX_LABEL
  {
    LowerTypeShape(typ);
    Powers();
    DigitsLength(index, 4);
    DigitsLength(index, 1);
  }

  lemma {:induction false} ShorterJobNamesFitToo(job: string, typ: string, rid: string, index: nat, suffix: string)
    requires ValidType(typ) && |rid| == 4 && |suffix| == 5 && index < 10000
    requires typ == SCHEDULER ==> index == 0
    ensures |GenPodName(job, typ, rid, index, suffix)| <= MAX_LABEL
  {
    LowerTypeShape(typ);
    Powers();
    DigitsLength(index, 4);
    DigitsLength(index, 1);
  }
}
