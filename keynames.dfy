/**
 * Key normalisation: the fallback chain that turns a raw key event into one of
 * the names the unlock chord cares about ("ctrl", "alt", a lowercased character)
 * or into nothing.
 */
module KeyNames {
  import opened Wrappers

  /** The members of the platform's named-key enumeration, as far as
      normalisation tells them apart; every other member is `OtherNamed`. */
  datatype NamedKey =
    | Ctrl | CtrlL | CtrlR
    | Alt | AltL | AltR | AltGr
    | OtherNamed(name: string)

  /** A raw key as delivered by the input listener: either a member of the
      named-key enumeration or a key code that may carry a character and a
      virtual-key code. `repr` is the key's debug representation, kept
      abstract; both kinds of key have one. */
  datatype RawKey =
    | Named(kind: NamedKey, repr: string)
    | Code(ch: Option<string>, vk: Option<int>, repr: string)

  predicate IsUpperAscii(c: char) { 'A' <= c <= 'Z' }

  /** No upper-case ASCII letter occurs in `s`. */
  predicate NoUpperAscii(s: string) { forall i :: 0 <= i < |s| ==> !IsUpperAscii(s[i]) }

  /** `str.lower` restricted to ASCII: upper-case letters move to lower case,
      every other character is left alone. */
  function LowerChar(c: char): char
  {
    if IsUpperAscii(c) then (c as int + 32) as char else c
  }

  function Lower(s: string): (r: string)
    ensures |r| == |s| && NoUpperAscii(r)
    ensures forall i :: 0 <= i < |s| && !IsUpperAscii(s[i]) ==> r[i] == s[i]
    ensures forall i :: 0 <= i < |s| && IsUpperAscii(s[i]) ==> r[i] == (s[i] as int + 32) as char
  {
    seq(|s|, i requires 0 <= i < |s| => LowerChar(s[i]))
  }

  /** `p` occurs in `s` starting at position `i`. */
  predicate OccursAt(p: string, s: string, i: int)
  {
    0 <= i && i + |p| <= |s| && s[i..i + |p|] == p
  }

  /** Python's substring test `p in s`. */
  predicate Occurs(p: string, s: string)
  {
    exists i :: 0 <= i <= |s| && OccursAt(p, s, i)
  }

  /** The repr fallback's test on the lowercased representation, as written:
      a quoted `'u'` or a bare `u` anywhere. */
  predicate ReprMentionsU(reprLower: string)
  {
    Occurs("'u'", reprLower) || Occurs("u", reprLower)
  }

  /** The quoted alternative of the repr test adds nothing: the test holds
      exactly when the letter u occurs anywhere in the representation. */
  lemma {:induction false} ReprMentionsUIffLetter(reprLower: string)
    ensures ReprMentionsU(reprLower) <==> 'u' in reprLower
  {
    if 'u' in reprLower {
      var i :| 0 <= i < |reprLower| && reprLower[i] == 'u';
      assert OccursAt("u", reprLower, i);
    }
    if Occurs("'u'", reprLower) {
      var i :| 0 <= i <= |reprLower| && OccursAt("'u'", reprLower, i);
      assert |"'u'"| == 3;
      assert reprLower[i + 1] == reprLower[i..i + 3][1] == 'u';
    }
    if Occurs("u", reprLower) {
      var i :| 0 <= i <= |reprLower| && OccursAt("u", reprLower, i);
      assert |"u"| == 1;
      assert reprLower[i] == reprLower[i..i + 1][0] == 'u';
    }
  }

  predicate IsCtrl(kind: NamedKey) { kind == Ctrl || kind == CtrlL || kind == CtrlR }
  predicate IsAlt(kind: NamedKey) { kind == Alt || kind == AltL || kind == AltR || kind == AltGr }

  /** The normalised name of a key: "ctrl" or "alt" for the control and alt
      modifiers, nothing for other named keys; for key codes the character
      lowercased if there is a non-empty one, otherwise the lowercase ASCII
      letter of a virtual-key code in 65..90 or 97..122, otherwise nothing. */
  function KeyName(k: RawKey): (r: Option<string>)
    ensures r.Some? ==> |r.value| > 0 && NoUpperAscii(r.value)
    ensures k.Named? ==> r == None || r == Some("ctrl") || r == Some("alt")
    ensures k.Code? && r.Some? && (k.ch.None? || k.ch == Some("")) ==>
              |r.value| == 1 && 'a' <= r.value[0] <= 'z'
  {
    match k
    case Named(kind, _) =>
      if IsCtrl(kind) then Some("ctrl")
      else if IsAlt(kind) then Some("alt")
      else None
    case Code(ch, vk, _) =>
      if ch.Some? && ch.value != "" then Some(Lower(ch.value))
      else if vk.Some? && 65 <= vk.value <= 90 then Some(Lower([vk.value as char]))
      else if vk.Some? && 97 <= vk.value <= 122 then Some([vk.value as char])
      else None
  }

  /** Modifier keys: the three control keys, and only they, give "ctrl"; the
      four alt keys, and only they, give "alt"; every other named key gives
      nothing. */
  lemma ModifierNames(kind: NamedKey, repr: string)
    ensures KeyName(Named(kind, repr)) == Some("ctrl") <==> kind in {Ctrl, CtrlL, CtrlR}
    ensures KeyName(Named(kind, repr)) == Some("alt") <==> kind in {Alt, AltL, AltR, AltGr}
    ensures KeyName(Named(kind, repr)) == None <==> kind.OtherNamed?
  {
  }

  /** A key code with a non-empty character normalises to that character
      lowercased, whatever its virtual-key code and representation. */
  lemma CharBeforeVk(c: string, vk: Option<int>, repr: string)
    requires c != ""
    ensures KeyName(Code(Some(c), vk, repr)) == Some(Lower(c))
  {
  }

  /** Without a character, the virtual-key code decides: 65..90 gives the
      matching lowercase letter, 97..122 gives that letter itself, anything
      else (or no code) gives nothing. */
  lemma VkFallback(ch: Option<string>, vk: Option<int>, repr: string)
    requires ch.None? || ch == Some("")
    ensures vk.Some? && 65 <= vk.value <= 90 ==>
              KeyName(Code(ch, vk, repr)) == Some([(vk.value + 32) as char])
    ensures vk.Some? && 97 <= vk.value <= 122 ==>
              KeyName(Code(ch, vk, repr)) == Some([vk.value as char])
    ensures (vk.None? || !(65 <= vk.value <= 90 || 97 <= vk.value <= 122)) ==>
              KeyName(Code(ch, vk, repr)) == None
  {
    if vk.Some? && 65 <= vk.value <= 90 {
      assert Lower([vk.value as char]) == [(vk.value + 32) as char];
    }
  }

  /** Upper- and lower-case virtual-key codes of one letter agree, so the
      code 85 reported for the U key gives "u". */
  lemma {:induction false} VkCaseAgnostic(v: int, repr: string)
    requires 65 <= v <= 90
    ensures KeyName(Code(None, Some(v), repr)) == KeyName(Code(None, Some(v + 32), repr))
    ensures v == 85 ==> KeyName(Code(None, Some(v), repr)) == Some("u")
  {
    assert Lower([v as char]) == [(v + 32) as char];
  }
}
