/**
 * Database connection profiles as the configuration wizard sees them: a
 * named set of connection attributes bound to a driver, kept in a store
 * that can save a profile and mark one as the profile in use.
 */
module Profiles {
  import opened Options

  /** The connection fields a driver form can show. */
  datatype Field = Host | Port | Username | Password | Database | Query

  /** Fields edited in a line edit; `Port` is edited in a spin box. */
  predicate IsTextField(f: Field) {
    f != Port
  }

  /** A profile attribute's value: text, or a number (ports are numbers). */
  datatype Value = Text(s: string) | Num(n: int)

  /** A connection profile. */
  datatype Profile = Profile(
    name: string,
    driver: string,
    editable: bool,
    attrs: map<Field, Option<Value>>)

  /** The profile's value of `f`; an attribute never set reads as None. */
  function Attr(p: Profile, f: Field): Option<Value> {
    if f in p.attrs then p.attrs[f] else None
  }

  /**
   * The persisted profiles, by name, and the name of the profile in use.
   * Saving writes the profile under its current name; the persistence format
   * itself belongs to the database layer.
   */
  class ProfileStore {
    var profiles: map<string, Profile>
    var inUse: Option<string>

    /** Every profile is stored under its own name. */
    ghost predicate Valid()
      reads this
    {
      forall n :: n in profiles ==> profiles[n].name == n
    }

    constructor (initial: map<string, Profile>)
      ensures profiles == initial && inUse == None
    {
      profiles, inUse := initial, None;
    }

    /** Looks a profile up by name; None stands for ProfileNotFoundError. */
    function Get(name: string): (r: Option<Profile>)
      reads this
      ensures r.Some? <==> name in profiles
      ensures r.Some? ==> r.value == profiles[name]
    {
      if name in profiles then Some(profiles[name]) else None
    }

    /** Persists `p` under its name. */
    method Save(p: Profile)
      modifies this
      ensures old(Valid()) ==> Valid()
      ensures profiles == old(profiles)[p.name := p]
      ensures inUse == old(inUse)
    {
      profiles := profiles[p.name := p];
    }

    /** Makes `p` the profile in use. */
    method Use(p: Profile)
      modifies this
      ensures inUse == Some(p.name)
      ensures profiles == old(profiles)
    {
      inUse := Some(p.name);
    }
  }
}
