/**
 The singleton of DesignPatterns/codings/creational/singleton/singleton1.py.
 Objects live in an explicit heap (their attribute dictionaries, addressed by
 index, so that `is` and `id` are index equality); the class attribute
 `_instance` is an optional index into it.
 */
module Singleton {
  import opened Python

  datatype Heap = Heap(objects: seq<Attrs>, instance: Option<nat>)

  /** `_instance`, when set, names an object of the heap. */
  predicate Valid(h: Heap) {
    h.instance.Some? ==> h.instance.value < |h.objects|
  }

  /** The class before the first construction. */
  const Empty := Heap([], None)

  /** The error `object.__new__` raises when `super().__new__(cls, *args,
      **kwargs)` forwards any argument. */
  const NewTakesNoArguments :=
    TypeError("object.__new__() takes exactly one argument (the type to instantiate)")

  /** `AppSettings(*args, **kwargs)` with `args` arguments in total. The first
      construction allocates a new object and stores it in `_instance`; it
      fails when arguments are forwarded to `object.__new__`. Later
      constructions return the stored object; the inherited `object.__init__`
      accepts the extra arguments then, because `__new__` is overridden. */
  function New(h: Heap, args: nat): (r: Result<(Heap, nat)>)
    requires Valid(h)
    ensures r.Ok? ==> Valid(r.value.0) && r.value.0.instance == Some(r.value.1)
    ensures h.instance.Some? ==> r == Ok((h, h.instance.value))
    ensures h.instance.None? && args == 0 ==>
      r.Ok? && r.value.1 == |h.objects| && r.value.0.objects == h.objects + [map[]]
    ensures r.Raise? <==> h.instance.None? && args > 0
    ensures r.Raise? ==> r.error == NewTakesNoArguments
  {
    if h.instance.None? then
      if args > 0 then Raise(NewTakesNoArguments)
      else Ok((Heap(h.objects + [map[]], Some(|h.objects|)), |h.objects|))
    else Ok((h, h.instance.value))
  }

  /** `obj.name = v` */
  function SetAttr(h: Heap, obj: nat, name: string, v: Value): (r: Heap)
    requires obj < |h.objects|
    ensures r.instance == h.instance && |r.objects| == |h.objects|
    ensures r.objects[obj] == h.objects[obj][name := v]
    ensures forall o :: 0 <= o < |h.objects| && o != obj ==> r.objects[o] == h.objects[o]
  {
    h.(objects := h.objects[obj := h.objects[obj][name := v]])
  }

  /** The heap after a series of constructions, each given its argument
      count, stopping at the first that raises. */
  function NewAll(h: Heap, calls: seq<nat>): (r: Result<Heap>)
    requires Valid(h)
    ensures r.Ok? ==> Valid(r.value)
    ensures r.Ok? ==> |h.objects| <= |r.value.objects| && r.value.objects[..|h.objects|] == h.objects
    ensures r.Ok? && calls != [] ==> r.value.instance.Some?
    ensures r.Ok? && h.instance.Some? ==> r.value.instance == h.instance
    decreases |calls|
  {
    if calls == [] then Ok(h)
    else match New(h, calls[0])
      case Raise(e) => Raise(e)
      case Ok((h', _)) => NewAll(h', calls[1..])
  }

  /** Once `_instance` is set, no construction changes the heap: every later
      call returns the same object and allocates nothing. */
  lemma {:induction false} InstanceNeverChanges(h: Heap, calls: seq<nat>)
    requires Valid(h) && h.instance.Some?
    ensures NewAll(h, calls) == Ok(h)
    decreases |calls|
  {
    if calls != [] {
      InstanceNeverChanges(h, calls[1..]);
    }
  }

  /** Any two successful constructions, however many others happen in
      between, yield the same object. */
  lemma SameObject(h: Heap, between: seq<nat>)
    requires Valid(h)
    ensures var first := New(h, 0);
      && first.Ok?
      && NewAll(first.value.0, between) == Ok(first.value.0)
      && New(first.value.0, 0) == Ok(first.value)
  {
    InstanceNeverChanges(New(h, 0).value.0, between);
  }

  /** The driver: `as1 = AppSettings()`, `as2 = AppSettings()`; they are the
      same object, and `as1.nome = "Joao"` is read back as `as2.nome`. */
  lemma Driver()
    ensures var (h1, as1) := New(Empty, 0).value;
      var (h2, as2) := New(h1, 0).value;
      && as1 == as2
      && GetAttr(SetAttr(h2, as1, "nome", Str("Joao")).objects[as2], "nome") == Ok(Str("Joao"))
  {
  }
}
