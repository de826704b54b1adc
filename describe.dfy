/** Playlist descriptions: the artist shown for a track, the single-field
    `str.format` the description templates go through, and the description
    text the playlister writes. */
module Describe {
  import opened Answers
  import opened TrackLists

  /** What the service tells about one track: its id, name, artist names and
      album image addresses (largest first). */
  datatype TrackInfo = TrackInfo(id: TrackId, name: string, artists: seq<string>, images: seq<string>)

  const DefaultArtist: string := "Unknown Artist"
  const DefaultEmail: string := "default@example.com"

  /** The artist credited for a track: its first artist, or "Unknown Artist"
      when the track lists none. */
  function ArtistOf(t: TrackInfo): (a: string)
    ensures |t.artists| > 0 ==> a == t.artists[0]
    ensures |t.artists| == 0 ==> a == DefaultArtist
  {
    if |t.artists| > 0 then t.artists[0] else DefaultArtist
  }

  // ---------------------------------------------------------------------------
  // str.format with one positional argument, for templates whose only
  // replacement fields are "{}"

  /** A "{}" replacement field starts at position i of t. */
  predicate SlotAt(t: string, i: int)
  {
    0 <= i && i + 1 < |t| && t[i] == '{' && t[i + 1] == '}'
  }

  /** `'{}' in t` */
  predicate ContainsSlot(t: string)
  {
    exists i :: 0 <= i < |t| && SlotAt(t, i)
  }

  /** The number of "{}" fields `str.format` meets scanning t from the left. */
  function Slots(t: string): nat
  {
    if |t| >= 2 && t[0] == '{' && t[1] == '}' then 1 + Slots(t[2..])
    else if t == [] then 0
    else Slots(t[1..])
  }

  /** t with every "{}" field replaced by arg. */
  function Substitute(t: string, arg: string): string
  {
    if |t| >= 2 && t[0] == '{' && t[1] == '}' then arg + Substitute(t[2..], arg)
    else if t == [] then []
    else [t[0]] + Substitute(t[1..], arg)
  }

  /** `t.format(arg)`: a template with no field comes back unchanged, one field
      is replaced by arg, and a second field raises an IndexError (None), as
      there is only one argument to take its value from. */
  function Format(t: string, arg: string): Option<string>
  {
    if Slots(t) <= 1 then Some(Substitute(t, arg)) else None
  }

  /** Scanning two pieces one after the other is scanning their concatenation,
      unless a "{" ending the first meets a "}" starting the second. */
  lemma ScanAppend(x: string, y: string, arg: string)
    requires !(|x| > 0 && |y| > 0 && x[|x| - 1] == '{' && y[0] == '}')
    ensures Substitute(x + y, arg) == Substitute(x, arg) + Substitute(y, arg)
    ensures Slots(x + y) == Slots(x) + Slots(y)
  {
    SubstituteAppend(x, y, arg);
    SlotsAppend(x, y);
  }

  lemma {:induction false} SubstituteAppend(x: string, y: string, arg: string)
    requires !(|x| > 0 && |y| > 0 && x[|x| - 1] == '{' && y[0] == '}')
    ensures Substitute(x + y, arg) == Substitute(x, arg) + Substitute(y, arg)
  {
    if x == [] {
      assert x + y == y;
    } else if SlotAt(x, 0) {
      var xy := x + y;
      assert SlotAt(xy, 0) && xy[2..] == x[2..] + y;
      SubstituteAppend(x[2..], y, arg);
    } else {
      var xy, rest := x + y, x[1..];
      NoSlotAtJoin(x, y);
      assert xy[1..] == rest + y;
      assert Substitute(xy, arg) == [x[0]] + Substitute(rest + y, arg);
      SubstituteAppend(rest, y, arg);
      assert [x[0]] + (Substitute(rest, arg) + Substitute(y, arg))
        == ([x[0]] + Substitute(rest, arg)) + Substitute(y, arg);
    }
  }

  lemma {:induction false} SlotsAppend(x: string, y: string)
    requires !(|x| > 0 && |y| > 0 && x[|x| - 1] == '{' && y[0] == '}')
    ensures Slots(x + y) == Slots(x) + Slots(y)
  {
    if x == [] {
      assert x + y == y;
    } else if SlotAt(x, 0) {
      var xy := x + y;
      assert SlotAt(xy, 0) && xy[2..] == x[2..] + y;
      SlotsAppend(x[2..], y);
    } else {
      var xy, rest := x + y, x[1..];
      NoSlotAtJoin(x, y);
      assert xy[1..] == rest + y;
      SlotsAppend(rest, y);
    }
  }

  /** A non-empty x that does not start with a field, joined to y without
      making a field at the seam, does not start with a field either, and its
      tail still meets the seam condition. */
  lemma NoSlotAtJoin(x: string, y: string)
    requires x != [] && !SlotAt(x, 0)
    requires !(|x| > 0 && |y| > 0 && x[|x| - 1] == '{' && y[0] == '}')
    ensures (x + y)[0] == x[0] && !SlotAt(x + y, 0)
    ensures !(|x[1..]| > 0 && |y| > 0 && x[1..][|x[1..]| - 1] == '{' && y[0] == '}')
  {
    if |x| >= 2 {
      assert (x + y)[1] == x[1];
      assert x[1..][|x[1..]| - 1] == x[|x| - 1];
    } else if |y| > 0 {
      assert (x + y)[1] == y[0];
    }
  }

  /** A template without fields is left as it is. */
  lemma {:induction false} SubstituteNoSlots(t: string, arg: string)
    requires Slots(t) == 0
    ensures Substitute(t, arg) == t
  {
    if t != [] {
      SubstituteNoSlots(t[1..], arg);
    }
  }

  /** A field at position i is one of the fields counted and replaced. */
  lemma SplitAtSlot(t: string, i: int, arg: string)
    requires SlotAt(t, i)
    ensures Slots(t) == Slots(t[..i]) + 1 + Slots(t[i + 2..])
    ensures Substitute(t, arg) == Substitute(t[..i], arg) + arg + Substitute(t[i + 2..], arg)
  {
    var y := t[i..];
    assert t == t[..i] + y;
    assert y[2..] == t[i + 2..];
    ScanAppend(t[..i], y, arg);
  }

  /** `'{}' in t` holds exactly when `t.format` meets at least one field. */
  lemma {:induction false} ContainsSlotIffSlots(t: string)
    ensures ContainsSlot(t) <==> Slots(t) >= 1
  {
    if ContainsSlot(t) {
      var i :| 0 <= i < |t| && SlotAt(t, i);
      SplitAtSlot(t, i, "");
    }
    if Slots(t) >= 1 {
      FindSlot(t);
    }
  }

  lemma {:induction false} FindSlot(t: string)
    requires Slots(t) >= 1
    ensures ContainsSlot(t)
  {
    if SlotAt(t, 0) {
    } else {
      FindSlot(t[1..]);
      var i :| 0 <= i < |t[1..]| && SlotAt(t[1..], i);
      assert t[1..][i] == t[i + 1] && t[1..][i + 1] == t[i + 2];
      assert SlotAt(t, i + 1);
    }
  }

  /** A template with no "{}" comes back unchanged. */
  lemma FormatNoSlot(t: string, arg: string)
    requires !ContainsSlot(t)
    ensures Format(t, arg) == Some(t)
  {
    ContainsSlotIffSlots(t);
    SubstituteNoSlots(t, arg);
  }

  /** A template with exactly one "{}" has it replaced by the argument. */
  lemma FormatOneSlot(pre: string, post: string, arg: string)
    requires !ContainsSlot(pre) && !ContainsSlot(post)
    ensures Format(pre + "{}" + post, arg) == Some(pre + arg + post)
  {
    var t := pre + "{}" + post;
    assert SlotAt(t, |pre|);
    assert t[..|pre|] == pre && t[|pre| + 2..] == post;
    SplitAtSlot(t, |pre|, arg);
    FormatNoSlot(pre, arg);
    FormatNoSlot(post, arg);
    ContainsSlotIffSlots(pre);
    ContainsSlotIffSlots(post);
  }

  /** A template with two "{}" fields makes `format` raise. */
  lemma FormatTwoSlots(t: string, i: int, j: int, arg: string)
    requires SlotAt(t, i) && SlotAt(t, j) && i + 2 <= j
    ensures Format(t, arg) == None
  {
    SplitAtSlot(t, i, arg);
    var rest := t[i + 2..];
    assert SlotAt(rest, j - i - 2);
    SplitAtSlot(rest, j - i - 2, arg);
  }

  // ---------------------------------------------------------------------------
  // The description the playlister writes

  /** The description text for a top artist: the formatted template (or
      "Updated playlist featuring <artist>" when there is no template), then the
      submission contact and the cover credit.  None when formatting raises. */
  function SubmissionDescription(template: string, artist: string, email: string): (d: Option<string>)
  {
    var formatted := if template == "" then Some("Updated playlist featuring " + artist) else Format(template, artist);
    if formatted.None? then None
    else Some(formatted.value + " For submissions, contact: " + email + ". Cover: " + artist)
  }

  /** Every description written ends with the contact address and the cover
      credit; with a one-field template it reads template-with-artist first, and
      without a template it reads "Updated playlist featuring <artist>" first. */
  lemma SubmissionDescriptionText(pre: string, post: string, artist: string, email: string)
    requires !ContainsSlot(pre) && !ContainsSlot(post)
    ensures SubmissionDescription(pre + "{}" + post, artist, email)
         == Some(pre + artist + post + " For submissions, contact: " + email + ". Cover: " + artist)
    ensures SubmissionDescription("", artist, email)
         == Some("Updated playlist featuring " + artist + " For submissions, contact: " + email + ". Cover: " + artist)
  {
    FormatOneSlot(pre, post, artist);
    assert pre + "{}" + post != "";
  }

  /** A template with no field is used word for word. */
  lemma SubmissionDescriptionFixed(template: string, artist: string, email: string)
    requires template != "" && !ContainsSlot(template)
    ensures SubmissionDescription(template, artist, email)
         == Some(template + " For submissions, contact: " + email + ". Cover: " + artist)
  {
    FormatNoSlot(template, artist);
  }

  /** A template with two fields makes the description step raise. */
  lemma SubmissionDescriptionRaises(template: string, i: int, j: int, artist: string, email: string)
    requires SlotAt(template, i) && SlotAt(template, j) && i + 2 <= j
    ensures SubmissionDescription(template, artist, email) == None
  {
    FormatTwoSlots(template, i, j, artist);
  }
}
