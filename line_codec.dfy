/** The serial line decoder: `data.split(",").map((v) => Number(v))` and the two-field guard
    (src/renderer.js:218-223). JavaScript's `Number` is a parameter `number`. */
module LineCodec {
  import opened Wrappers

  /** The field separator of a serial record. */
  const SEPARATOR: char := ','

  /** Number of occurrences of `d` in `s`. */
  function Occurrences(s: string, d: char): nat
  {
    if s == [] then 0 else (if s[0] == d then 1 else 0) + Occurrences(s[1..], d)
  }

  /** `s.split(d)` for a one-character separator: the pieces between the separators,
      always at least one (`"".split(",")` is `[""]`), none containing `d`. */
  function Split(s: string, d: char): (r: seq<string>)
    ensures |r| >= 1
    ensures forall i :: 0 <= i < |r| ==> d !in r[i]
  {
    if s == [] then [""]
    else
      var rest := Split(s[1..], d);
      if s[0] == d then [""] + rest
      else [[s[0]] + rest[0]] + rest[1..]
  }

  /** `fields.join(d)`: the reference that `Split` inverts. */
  function Join(fields: seq<string>, d: char): string
  {
    if |fields| == 0 then ""
    else if |fields| == 1 then fields[0]
    else fields[0] + [d] + Join(fields[1..], d)
  }

  /** Splitting yields one more field than there are separators. */
  lemma {:induction false} SplitLength(s: string, d: char)
    ensures |Split(s, d)| == Occurrences(s, d) + 1
  {
    if s != [] {
      SplitLength(s[1..], d);
    }
  }

  /** Joining the fields back with the separator restores the line. */
  lemma {:induction false} JoinSplit(s: string, d: char)
    ensures Join(Split(s, d), d) == s
  {
    if s != [] {
      var rest := Split(s[1..], d);
      JoinSplit(s[1..], d);
      if s[0] == d {
        assert ([""] + rest)[1..] == rest;
        assert s == [d] + s[1..];
      } else if |rest| == 1 {
        assert s == [s[0]] + s[1..];
      } else {
        var r := [[s[0]] + rest[0]] + rest[1..];
        assert r[1..] == rest[1..];
        assert Join(rest, d) == rest[0] + [d] + Join(rest[1..], d);
        assert s == [s[0]] + s[1..];
      }
    }
  }

  /** A separator-free prefix glues onto the first field of what follows it. */
  lemma {:induction false} SplitPrefix(a: string, t: string, d: char)
    requires d !in a
    ensures Split(a + t, d) == [a + Split(t, d)[0]] + Split(t, d)[1..]
  {
    if a != [] {
      assert (a + t)[1..] == a[1..] + t;
      assert a[0] != d;
      SplitPrefix(a[1..], t, d);
      assert [a[0]] + (a[1..] + Split(t, d)[0]) == a + Split(t, d)[0];
    } else {
      var r := Split(t, d);
      assert a + t == t && a + r[0] == r[0];
      assert r == [r[0]] + r[1..];
    }
  }

  /** Splitting a join of separator-free fields gives back the fields. */
  lemma {:induction false} SplitJoin(fields: seq<string>, d: char)
    requires |fields| >= 1
    requires forall i :: 0 <= i < |fields| ==> d !in fields[i]
    ensures Split(Join(fields, d), d) == fields
  {
    if |fields| == 1 {
      SplitPrefix(fields[0], "", d);
      assert fields[0] + "" == fields[0];
    } else {
      var t := Join(fields[1..], d);
      SplitJoin(fields[1..], d);
      assert fields[0] + [d] + t == fields[0] + ([d] + t);
      SplitPrefix(fields[0], [d] + t, d);
      assert ([d] + t)[1..] == t;
      assert Split([d] + t, d) == [""] + fields[1..];
      assert fields[0] + "" == fields[0];
    }
  }

  /** One received line: both channel values when the line has exactly two fields,
      otherwise nothing (the source keeps its previous samples). */
  function Decode(line: string, number: string -> real): Option<(real, real)>
  {
    var fields := Split(line, SEPARATOR);
    if |fields| == 2 then Some((number(fields[0]), number(fields[1]))) else None
  }

  /** A line is accepted exactly when it contains exactly one comma. */
  lemma DecodeAcceptsOneComma(line: string, number: string -> real)
    ensures Decode(line, number).Some? <==> Occurrences(line, SEPARATOR) == 1
  {
    SplitLength(line, SEPARATOR);
  }

  /** The record `a,b` decodes to the numbers of `a` and `b`, in that order. */
  lemma DecodeRecord(a: string, b: string, number: string -> real)
    requires SEPARATOR !in a && SEPARATOR !in b
    ensures Decode(a + [SEPARATOR] + b, number) == Some((number(a), number(b)))
  {
    var fields := [a, b];
    SplitJoin(fields, SEPARATOR);
    assert Join(fields, SEPARATOR) == a + [SEPARATOR] + b by {
      assert fields[1..] == [b];
    }
  }
}
