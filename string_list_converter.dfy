/** The JPA converter that stores a list of tags in one text column:
    joined with "," on the way in, split, trimmed and filtered on the way out. */
module StringListConverter {
  import opened Text

  /** A tag that survives a store-and-load unchanged. */
  predicate WellFormedTag(t: string) {
    t != "" && IsTrimmed(t) && DELIMITER !in t
  }

  predicate AllWellFormed(xs: seq<string>) {
    forall i :: 0 <= i < |xs| ==> WellFormedTag(xs[i])
  }

  function TrimAll(xs: seq<string>): (r: seq<string>)
    ensures |r| == |xs| && forall i :: 0 <= i < |xs| ==> r[i] == Trim(xs[i])
  {
    seq(|xs|, i requires 0 <= i < |xs| => Trim(xs[i]))
  }

  /** Keeps the non-empty elements, in order. */
  function KeepNonEmpty(xs: seq<string>): (r: seq<string>)
    ensures |r| <= |xs|
    ensures forall i :: 0 <= i < |r| ==> r[i] != "" && r[i] in xs
    ensures (forall i :: 0 <= i < |xs| ==> xs[i] != "") ==> r == xs
  {
    if xs == [] then []
    else if xs[0] == "" then KeepNonEmpty(xs[1..])
    else [xs[0]] + KeepNonEmpty(xs[1..])
  }

  /** convertToDatabaseColumn: the empty list becomes "", any other list its
      elements joined with ",". */
  function Encode(xs: seq<string>): (r: string)
    ensures |xs| == 0 ==> r == ""
    ensures |xs| > 0 && CommaFree(xs) ==> SplitAll(r) == xs
  {
    if |xs| == 0 then "" else
      assert |xs| > 0 && CommaFree(xs) ==> SplitAll(Join(xs)) == xs by {
        if CommaFree(xs) { SplitAllJoin(xs); }
      }
      Join(xs)
  }

  /** convertToEntityAttribute: a blank column becomes the empty list, any
      other column its comma-separated pieces, trimmed, without empty pieces. */
  function Decode(s: string): (r: seq<string>)
    ensures Trim(s) == "" ==> r == []
    ensures AllWellFormed(r)
  {
    if Trim(s) == "" then []
    else
      var pieces := Split(s);
      var r := KeepNonEmpty(TrimAll(pieces));
      assert AllWellFormed(r) by {
        forall i | 0 <= i < |pieces| ensures DELIMITER !in Trim(pieces[i]) {
          TrimKeepsCommaFree(pieces[i]);
        }
      }
      r
  }

  lemma JoinStartsWithFirst(xs: seq<string>)
    requires |xs| > 0 && xs[0] != ""
    ensures |Join(xs)| > 0 && Join(xs)[0] == xs[0][0]
  {
  }

  lemma TrimAllOfTrimmed(xs: seq<string>)
    requires forall i :: 0 <= i < |xs| ==> IsTrimmed(xs[i])
    ensures TrimAll(xs) == xs
  {
    forall i | 0 <= i < |xs| ensures Trim(xs[i]) == xs[i] {
      TrimOfTrimmed(xs[i]);
    }
  }

  /** Loading what was stored gives back the same list, for well-formed tags. */
  lemma DecodeEncode(xs: seq<string>)
    requires AllWellFormed(xs)
    ensures Decode(Encode(xs)) == xs
  {
    if |xs| > 0 {
      var s := Join(xs);
      assert Encode(xs) == s;
      assert !IsTrimmable(xs[0][0]);
      JoinStartsWithFirst(xs);
      TrimEmptyIff(s);
      assert Trim(s) != "";
      assert CommaFree(xs);
      SplitJoin(xs);
      TrimAllOfTrimmed(xs);
      assert Decode(s) == KeepNonEmpty(TrimAll(xs));
    }
  }

  /** Loading is stable: storing and reloading a loaded list changes nothing. */
  lemma DecodeStable(s: string)
    ensures Decode(Encode(Decode(s))) == Decode(s)
  {
    DecodeEncode(Decode(s));
  }
}
