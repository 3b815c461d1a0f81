/**
 * The names under which the recovery layer files what it has received. An authenticated path
 * is called "ice:" followed by its ICE username, "local-ufrag:remote-ufrag"; a path without
 * one is called by its two addresses. An identity is active while the first ufrag of its
 * username is one the mux has handed out.
 */
module Identities {
  import opened Basics

  type Address = string

  datatype Identity = Identity(text: string)

  const ICE_PREFIX := "ice:"

  /** The identity of an authenticated path. */
  function Ice(username: string): Identity {
    Identity(ICE_PREFIX + username)
  }

  /** Everything before the first colon, as strings.Cut returns it. */
  function FirstSegment(s: string): (r: string)
    ensures ':' !in r && r <= s
    ensures |r| < |s| ==> s[|r|] == ':'
    ensures ':' in s <==> |r| < |s|
  {
    if s == [] || s[0] == ':' then []
    else
      var rest := FirstSegment(s[1..]);
      assert s == [s[0]] + s[1..];
      [s[0]] + rest
  }

  /** Whether `identity` is an ICE identity whose username has two parts, the first being `ufrag`. */
  ghost predicate BelongsTo(identity: Identity, ufrag: string) {
    && ICE_PREFIX <= identity.text
    && ':' in identity.text[4..]
    && FirstSegment(identity.text[4..]) == ufrag
  }

  /** activeIdentityLocked; without a mux (`None`) every identity is active. */
  predicate Active(active: Option<set<string>>, identity: Identity) {
    active.None? ||
    (&& ICE_PREFIX <= identity.text
     && ':' in identity.text[4..]
     && FirstSegment(identity.text[4..]) in active.value)
  }

  /** What RemoveConnByUfrag matches on: the text "ice:<ufrag>:" in front of an identity. */
  predicate Revokes(ufrag: string, identity: Identity) {
    ICE_PREFIX + ufrag + ":" <= identity.text
  }

  /** The same match on a bare username. */
  predicate RevokesName(ufrag: string, username: string) {
    ufrag + ":" <= username
  }

  /** A name starts with "ufrag:" exactly when `ufrag` is its whole first segment. */
  lemma PrefixIsFirstSegment(ufrag: string, username: string)
    requires ':' !in ufrag
    ensures RevokesName(ufrag, username) <==> ':' in username && FirstSegment(username) == ufrag
  {
    var first := FirstSegment(username);
    if RevokesName(ufrag, username) {
      assert username[|ufrag|] == (ufrag + ":")[|ufrag|] == ':';
      assert forall i :: 0 <= i < |ufrag| ==> username[i] == (ufrag + ":")[i] == ufrag[i];
      assert |first| == |ufrag|;
      assert first == username[..|first|] == username[..|ufrag|] == ufrag;
    }
    if ':' in username && first == ufrag {
      assert username[..|ufrag| + 1] == ufrag + ":";
    }
  }

  lemma RevokesMeansName(ufrag: string, identity: Identity)
    ensures Revokes(ufrag, identity) <==>
              ICE_PREFIX <= identity.text && RevokesName(ufrag, identity.text[4..])
  {
    var text, name := identity.text, ufrag + ":";
    assert ICE_PREFIX + ufrag + ":" == ICE_PREFIX + name;
    if Revokes(ufrag, identity) {
      assert text[..4] == (ICE_PREFIX + name)[..4] == ICE_PREFIX;
      assert text[4..][..|name|] == text[..4 + |name|][4..] == (ICE_PREFIX + name)[4..] == name;
    }
    if ICE_PREFIX <= text && name <= text[4..] {
      assert text[..4 + |name|] == text[..4] + text[4..][..|name|] == ICE_PREFIX + name;
    }
  }

  /** Removing a ufrag hits exactly the identities that belong to it, for any colon-free ufrag. */
  lemma RevokesExactly(ufrag: string, identity: Identity)
    requires ':' !in ufrag
    ensures Revokes(ufrag, identity) <==> BelongsTo(identity, ufrag)
  {
    RevokesMeansName(ufrag, identity);
    if ICE_PREFIX <= identity.text {
      PrefixIsFirstSegment(ufrag, identity.text[4..]);
    }
  }

  /** The grammar of section 5.4 of RFC 8839 is needed: a ufrag with a colon reaches further. */
  lemma ColonsReachFurther(ufrag: string)
    requires ':' in ufrag
    ensures Revokes(ufrag, Ice(ufrag + ":")) && !BelongsTo(Ice(ufrag + ":"), ufrag)
  {
    var text := Ice(ufrag + ":").text;
    assert ICE_PREFIX + ufrag + ":" == text;
    assert text[4..] == ufrag + ":";
    if FirstSegment(text[4..]) == ufrag {
      assert false;
    }
  }

  lemma IceName(username: string)
    ensures ICE_PREFIX <= Ice(username).text && Ice(username).text[4..] == username
  {
  }

  /** Revocation of names and of the identities made from them is one thing. */
  lemma RevokesIce(ufrag: string, username: string)
    ensures Revokes(ufrag, Ice(username)) <==> RevokesName(ufrag, username)
  {
    IceName(username);
    RevokesMeansName(ufrag, Ice(username));
  }
}
