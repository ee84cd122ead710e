/**
 * The handler registry of ModulesManager (oono_akira/modules/__init__.py:12-35):
 * the class-level table CAPABILITIES from an event type to the constructors
 * registered for it, in registration order, and CAPABILITIES_MAPPING from a
 * Python module to the constructor it registered per event type.
 */
module Registry {
  import opened Wrappers

  /** A handler constructor, identified by the Python module that defines it and its name there. */
  datatype Ctor = Ctor(moduleName: string, name: string)

  /** The coroutine a constructor returns, identified by its module (`__module__`) and name. */
  datatype HandlerFn = HandlerFn(moduleName: string, name: string)

  /** HandlerOption: an optional sub-queue name and an optional lock request. */
  datatype HandlerOption = HandlerOption(queue: Option<string>, lock: Option<bool>)

  /** A constructor's non-None answer: the function to run and its options. */
  datatype Handler = Handler(fn: HandlerFn, option: HandlerOption)

  /** One call `register(kind)(ctor)`. */
  datatype Registration = Registration(kind: string, ctor: Ctor)

  function Lookup<K, V>(m: map<K, seq<V>>, k: K): seq<V> {
    if k in m then m[k] else []
  }

  /** CAPABILITIES after the given registrations, built the way `_register` builds it: one append per call. */
  function Capabilities(regs: seq<Registration>): map<string, seq<Ctor>>
    decreases |regs|
  {
    if regs == [] then map[]
    else
      var caps := Capabilities(regs[..|regs| - 1]);
      var r := regs[|regs| - 1];
      caps[r.kind := Lookup(caps, r.kind) + [r.ctor]]
  }

  /** CAPABILITIES_MAPPING after the given registrations: a later entry for the same module and type overwrites. */
  function CapabilitiesMapping(regs: seq<Registration>): map<string, map<string, Ctor>>
    decreases |regs|
  {
    if regs == [] then map[]
    else
      var mapping := CapabilitiesMapping(regs[..|regs| - 1]);
      var r := regs[|regs| - 1];
      var inner := if r.ctor.moduleName in mapping then mapping[r.ctor.moduleName] else map[];
      mapping[r.ctor.moduleName := inner[r.kind := r.ctor]]
  }

  /** Reference definition: the constructors registered for `kind`, in registration order. */
  function RegisteredFor(regs: seq<Registration>, kind: string): seq<Ctor>
    decreases |regs|
  {
    if regs == [] then []
    else (if regs[0].kind == kind then [regs[0].ctor] else []) + RegisteredFor(regs[1..], kind)
  }

  lemma {:induction false} RegisteredForSnoc(regs: seq<Registration>, r: Registration, kind: string)
    ensures RegisteredFor(regs + [r], kind) == RegisteredFor(regs, kind) + (if r.kind == kind then [r.ctor] else [])
    decreases |regs|
  {
    if regs == [] {
      assert [r] + [] == [r];
    } else {
      var head := if regs[0].kind == kind then [regs[0].ctor] else [];
      var last := if r.kind == kind then [r.ctor] else [];
      assert (regs + [r])[0] == regs[0];
      assert (regs + [r])[1..] == regs[1..] + [r];
      RegisteredForSnoc(regs[1..], r, kind);
      assert RegisteredFor(regs + [r], kind) == head + (RegisteredFor(regs[1..], kind) + last);
      assert head + (RegisteredFor(regs[1..], kind) + last) == (head + RegisteredFor(regs[1..], kind)) + last;
    }
  }

  /**
   * CAPABILITIES[kind] holds exactly the constructors registered for kind, in
   * registration order, and kind is a key only once something was registered for it.
   */
  lemma {:induction false} CapabilitiesInOrder(regs: seq<Registration>, kind: string)
    ensures Lookup(Capabilities(regs), kind) == RegisteredFor(regs, kind)
    ensures kind in Capabilities(regs) <==> exists i :: 0 <= i < |regs| && regs[i].kind == kind
    decreases |regs|
  {
    if regs != [] {
      var init := regs[..|regs| - 1];
      var r := regs[|regs| - 1];
      assert regs == init + [r];
      CapabilitiesInOrder(init, kind);
      RegisteredForSnoc(init, r, kind);
      if kind in Capabilities(regs) && r.kind != kind {
        var i :| 0 <= i < |init| && init[i].kind == kind;
        assert regs[i] == init[i];
      }
      if exists i :: 0 <= i < |regs| && regs[i].kind == kind {
        var i :| 0 <= i < |regs| && regs[i].kind == kind;
        if i < |init| {
          assert init[i] == regs[i];
        }
      }
    }
  }

  /**
   * CAPABILITIES_MAPPING[module][kind] is the constructor of the LAST
   * registration by that module for that kind; the key exists only if there was one.
   */
  lemma {:induction false} MappingIsLast(regs: seq<Registration>, moduleName: string, kind: string)
    ensures (moduleName in CapabilitiesMapping(regs) && kind in CapabilitiesMapping(regs)[moduleName]) <==>
      exists i :: 0 <= i < |regs| && regs[i].ctor.moduleName == moduleName && regs[i].kind == kind
    ensures moduleName in CapabilitiesMapping(regs) && kind in CapabilitiesMapping(regs)[moduleName] ==>
      exists i :: 0 <= i < |regs| && regs[i].ctor.moduleName == moduleName && regs[i].kind == kind
        && CapabilitiesMapping(regs)[moduleName][kind] == regs[i].ctor
        && forall j :: i < j < |regs| ==> !(regs[j].ctor.moduleName == moduleName && regs[j].kind == kind)
    decreases |regs|
  {
    if regs != [] {
      var init := regs[..|regs| - 1];
      var r := regs[|regs| - 1];
      assert regs == init + [r];
      MappingIsLast(init, moduleName, kind);
      var n := |regs| - 1;
      if r.ctor.moduleName == moduleName && r.kind == kind {
        assert regs[n].ctor.moduleName == moduleName && regs[n].kind == kind;
      } else {
        if exists i :: 0 <= i < |regs| && regs[i].ctor.moduleName == moduleName && regs[i].kind == kind {
          var i :| 0 <= i < |regs| && regs[i].ctor.moduleName == moduleName && regs[i].kind == kind;
          assert i < n;
          assert init[i] == regs[i];
        }
        if moduleName in CapabilitiesMapping(regs) && kind in CapabilitiesMapping(regs)[moduleName] {
          var i :| 0 <= i < |init| && init[i].ctor.moduleName == moduleName && init[i].kind == kind
            && CapabilitiesMapping(init)[moduleName][kind] == init[i].ctor
            && forall j :: i < j < |init| ==> !(init[j].ctor.moduleName == moduleName && init[j].kind == kind);
          assert regs[i] == init[i];
          assert forall j :: i < j < |regs| ==> !(regs[j].ctor.moduleName == moduleName && regs[j].kind == kind) by {
            forall j | i < j < |regs| ensures !(regs[j].ctor.moduleName == moduleName && regs[j].kind == kind) {
              if j < n {
                assert regs[j] == init[j];
              }
            }
          }
        }
      }
    }
  }

  /**
   * The class-level tables.  `registrations` is the history of `register`
   * calls so far; Valid() ties both tables to it.
   */
  class CapabilityTable {
    var capabilities: map<string, seq<Ctor>>
    var capabilitiesMapping: map<string, map<string, Ctor>>
    ghost var registrations: seq<Registration>

    ghost predicate Valid()
      reads this
    {
      && capabilities == Capabilities(registrations)
      && capabilitiesMapping == CapabilitiesMapping(registrations)
    }

    constructor ()
      ensures Valid() && registrations == []
    {
      capabilities := map[];
      capabilitiesMapping := map[];
      registrations := [];
    }

    /** `register(kind)(f)`: records f and returns it unchanged. */
    method Register(kind: string, f: Ctor) returns (r: Ctor)
      requires Valid()
      modifies this
      ensures Valid()
      ensures registrations == old(registrations) + [Registration(kind, f)]
      ensures r == f
      ensures capabilities == old(capabilities)[kind := Lookup(old(capabilities), kind) + [f]]
      ensures f.moduleName in capabilitiesMapping && capabilitiesMapping[f.moduleName][kind] == f
    {
      var caps := capabilities;
      if kind !in caps {
        caps := caps[kind := []];
      }
      var mapping := capabilitiesMapping;
      if f.moduleName !in mapping {
        mapping := mapping[f.moduleName := map[]];
      }
      caps := caps[kind := caps[kind] + [f]];
      mapping := mapping[f.moduleName := mapping[f.moduleName][kind := f]];
      ghost var regs := registrations + [Registration(kind, f)];
      assert regs[..|regs| - 1] == registrations;
      assert caps == Capabilities(regs);
      assert mapping == CapabilitiesMapping(regs);
      capabilities, capabilitiesMapping, registrations := caps, mapping, regs;
      r := f;
    }
  }
}
