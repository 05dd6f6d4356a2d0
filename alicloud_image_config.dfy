/** The Alicloud ECS image settings (builder/alicloud/ecs/image_config.go):
    Prepare checks the image name and removes repeated copy regions. */
module AlicloudImageConfig {
  import opened Common

  datatype ImageError =
    | ImageNameMissing
    | ImageNameLength
    | ImageNameHttpPrefix
    | ImageNameHasSpaces

  /** The number of bytes UTF-8 needs for c; Go's len on a string counts bytes. */
  function Utf8Width(c: char): (n: nat)
    ensures 1 <= n <= 4
    ensures n == 1 <==> c as int < 0x80
  {
    if c as int < 0x80 then 1
    else if c as int < 0x800 then 2
    else if c as int < 0x1_0000 then 3
    else 4
  }

  function Utf8Len(s: string): (n: nat)
    ensures |s| <= n <= 4 * |s|
    ensures (forall i :: 0 <= i < |s| ==> s[i] as int < 0x80) ==> n == |s|
  {
    if s == [] then 0 else Utf8Width(s[0]) + Utf8Len(s[1..])
  }

  /** The characters the RE2 class \s matches: tab, newline, form feed,
      carriage return and space (ASCII only). */
  predicate IsSpace(c: char)
  {
    c == '\t' || c == '\n' || c as int == 12 || c == '\r' || c == ' '
  }

  predicate HasSpace(s: string)
  {
    exists i :: 0 <= i < |s| && IsSpace(s[i])
  }

  /** The first of the three name checks that fails, if any. */
  function NameRule(name: string): (r: seq<ImageError>)
    ensures |r| <= 1
    ensures r == [ImageNameMissing] <==> name == ""
    ensures r == [ImageNameLength] <==> name != "" && (Utf8Len(name) < 2 || Utf8Len(name) > 128)
    ensures r == [ImageNameHttpPrefix] <==>
      2 <= Utf8Len(name) <= 128 && (HasPrefix(name, "http://") || HasPrefix(name, "https://"))
    ensures r == [] <==> 2 <= Utf8Len(name) <= 128 && !HasPrefix(name, "http://") && !HasPrefix(name, "https://")
  {
    if name == "" then [ImageNameMissing]
    else if Utf8Len(name) < 2 || Utf8Len(name) > 128 then [ImageNameLength]
    else if HasPrefix(name, "http://") || HasPrefix(name, "https://") then [ImageNameHttpPrefix]
    else []
  }

  /** A name holding any white space is refused, whatever the first check said. */
  function SpaceRule(name: string): (r: seq<ImageError>)
    ensures r == [] <==> !HasSpace(name)
    ensures r != [] ==> r == [ImageNameHasSpaces]
  {
    if HasSpace(name) then [ImageNameHasSpaces] else []
  }

  /** Every error Prepare reports for an image name. */
  function NameErrors(name: string): seq<ImageError>
  {
    NameRule(name) + SpaceRule(name)
  }

  /** Prepare accepts an image name exactly when it is 2 to 128 bytes long,
      does not start with a web scheme and holds no white space; it reports
      at most two errors. */
  lemma NameAcceptedIff(name: string)
    ensures NameErrors(name) == [] <==>
      2 <= Utf8Len(name) <= 128 && !HasPrefix(name, "http://") && !HasPrefix(name, "https://") && !HasSpace(name)
    ensures |NameErrors(name)| <= 2
    ensures name == "" ==> NameErrors(name) == [ImageNameMissing]
  {
    if name == "" {
      assert !HasSpace(name);
    }
  }

  /** The length bound is on bytes, not characters: one three-byte
      character already meets the two-character minimum. */
  lemma LengthCountsBytes()
    ensures NameRule("中") == []
    ensures NameRule("a") == [ImageNameLength]
  {
    assert Utf8Len("中") == 3;
    assert !HasPrefix("中", "http://");
  }

  // ---------------------------------------------------------------------
  // Repeated copy regions.
  // ---------------------------------------------------------------------

  predicate NoDuplicates(xs: seq<string>)
  {
    forall i, j :: 0 <= i < j < |xs| ==> xs[i] != xs[j]
  }

  /** xs with every repeated region dropped, the first occurrence kept. */
  function Dedup(xs: seq<string>): (r: seq<string>)
    ensures NoDuplicates(r)
    ensures forall x :: x in r <==> x in xs
    ensures |r| <= |xs|
  {
    if xs == [] then []
    else
      var prefix := Dedup(xs[..|xs| - 1]);
      var last := xs[|xs| - 1];
      assert xs == xs[..|xs| - 1] + [last];
      if last in prefix then prefix else prefix + [last]
  }

  /** The position of the first occurrence of x in xs. */
  function FirstIndex(xs: seq<string>, x: string): (i: nat)
    requires x in xs
    ensures i < |xs| && xs[i] == x && x !in xs[..i]
  {
    if xs[0] == x then 0
    else
      var j := FirstIndex(xs[1..], x);
      assert xs[..j + 1] == [xs[0]] + xs[1..][..j];
      j + 1
  }

  lemma FirstIndexOfPrefix(xs: seq<string>, n: nat, x: string)
    requires n <= |xs| && x in xs[..n]
    ensures FirstIndex(xs, x) == FirstIndex(xs[..n], x)
  {
    var i := FirstIndex(xs[..n], x);
    assert xs[..n][..i] == xs[..i];
  }

  /** The kept regions come in the order of their first occurrences. */
  lemma {:induction false} DedupKeepsFirstOccurrenceOrder(xs: seq<string>)
    ensures forall i, j :: 0 <= i < j < |Dedup(xs)| ==>
      FirstIndex(xs, Dedup(xs)[i]) < FirstIndex(xs, Dedup(xs)[j])
  {
    if xs != [] {
      var n := |xs| - 1;
      var init := xs[..n];
      var prefix := Dedup(init);
      var last := xs[n];
      DedupKeepsFirstOccurrenceOrder(init);
      forall x | x in prefix
        ensures FirstIndex(xs, x) == FirstIndex(init, x) < n
      {
        FirstIndexOfPrefix(xs, n, x);
      }
      if last !in prefix {
        assert last !in init;
        assert xs[..n] == init;
        assert FirstIndex(xs, last) == n;
      }
    }
  }

  /** A list without repeats is left as it is, so deduplicating is idempotent. */
  lemma {:induction false} DedupOfDistinct(xs: seq<string>)
    requires NoDuplicates(xs)
    ensures Dedup(xs) == xs
  {
    if xs != [] {
      var n := |xs| - 1;
      assert NoDuplicates(xs[..n]);
      DedupOfDistinct(xs[..n]);
      assert xs[n] !in xs[..n];
      assert xs == xs[..n] + [xs[n]];
    }
  }

  lemma DedupIsIdempotent(xs: seq<string>)
    ensures Dedup(Dedup(xs)) == Dedup(xs)
  {
    DedupOfDistinct(Dedup(xs));
  }

  /** The loop of Prepare, with a set of the regions already seen. */
  method DedupRegions(xs: seq<string>) returns (regions: seq<string>)
    ensures regions == Dedup(xs)
  {
    var seen: set<string> := {};
    regions := [];
    for i := 0 to |xs|
      invariant regions == Dedup(xs[..i])
      invariant seen == set x | x in xs[..i]
    {
      assert xs[..i + 1][..i] == xs[..i];
      var region := xs[i];
      if region in seen {
        continue;
      }
      seen := seen + {region};
      regions := regions + [region];
    }
    assert xs[..|xs|] == xs;
  }

  /** The fields of AlicloudImageConfig that Prepare reads or writes. */
  class ImageConfig {
    var imageName: string
    var destinationRegions: seq<string>

    constructor (imageName: string, destinationRegions: seq<string>)
      ensures this.imageName == imageName && this.destinationRegions == destinationRegions
    {
      this.imageName := imageName;
      this.destinationRegions := destinationRegions;
    }

    /** Prepare: the name errors, and the copy regions deduplicated in
        place whether or not the name was accepted. */
    method Prepare() returns (errs: seq<ImageError>)
      modifies this`destinationRegions
      ensures errs == NameErrors(imageName)
      ensures destinationRegions == Dedup(old(destinationRegions))
    {
      errs := NameRule(imageName) + SpaceRule(imageName);
      if |destinationRegions| > 0 {
        destinationRegions := DedupRegions(destinationRegions);
      }
    }
  }
}
