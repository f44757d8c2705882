/**
 * Device placement of the networks (model/__init_2-4.py:10-20, 47-49, 68-78).
 *
 * Moving a network to a device (`.to(device)`, `.cuda()`) does not change the
 * network object and is not modelled.  `nn.DataParallel(m, gpus)` is an
 * opaque wrapper whose `.module` attribute is `m` again.
 */
module Placement {
  import opened Wrappers
  import opened StateDicts

  /** The two architectures the wrapper builds; the layers themselves are not modelled. */
  datatype Arch = Drn | DownBlock(factor: int)

  /** A network: its architecture and its current parameters. */
  datatype Net<V> = Net(arch: Arch, params: StateDict<V>)

  /** What a slot holds: a network, or a data-parallel wrapper
      whose `.module` is `wrapped`. */
  datatype Module<V> = Plain(net: Net<V>) | Wrapped(wrapped: Module<V>)

  /** Reading `.module` on something that is not a data-parallel wrapper,
      or indexing the list of dual models out of range. */
  datatype AccessError = NoModuleAttribute | IndexOutOfRange(index: int)

  /** The assertions of `dataparallel`. */
  datatype PlacementError = NoGpu | TooFewDevices

  /**
   * `get_model` / `get_dual_model` on a stored object: the object itself when
   * exactly one GPU is configured, otherwise its `.module`, which only a
   * wrapper has.
   */
  function Unwrap<V>(nGPUs: int, stored: Module<V>): (r: Result<Module<V>, AccessError>)
  {
    if nGPUs == 1 then Ok(stored)
    else if stored.Wrapped? then Ok(stored.wrapped)
    else Err(NoModuleAttribute)
  }

  /** The object a `dataparallel` slot holds afterwards, given the number of GPUs. */
  function Place<V>(m: Module<V>, ngpus: int): Module<V>
  {
    if ngpus >= 2 then Wrapped(m) else m
  }

  /**
   * The accessors undo the placement: whatever the GPU count, as long as it is
   * at least one, unwrapping a placed object gives back the object that was placed.
   */
  lemma UnwrapPlaced<V>(m: Module<V>, nGPUs: int)
    requires nGPUs >= 1
    ensures Unwrap(nGPUs, Place(m, nGPUs)) == Ok(m)
  {
  }

  /** Unwrapping fails exactly on an unwrapped object when the GPU count is not one. */
  lemma UnwrapFails<V>(nGPUs: int, stored: Module<V>)
    ensures Unwrap(nGPUs, stored).Err? <==> nGPUs != 1 && stored.Plain?
  {
  }

  /** `dataparallel`'s effect on a whole list: each slot placed, in place. */
  function PlaceAll<V>(models: seq<Module<V>>, ngpus: int): (r: seq<Module<V>>)
    ensures |r| == |models|
    ensures forall i :: 0 <= i < |models| ==> r[i] == Place(models[i], ngpus)
  {
    seq(|models|, i requires 0 <= i < |models| => Place(models[i], ngpus))
  }

  /**
   * `dataparallel(model, gpu_list)` (lines 10-20): checks its assertions, then
   * overwrites every slot of the list in place, keeping its length and order.
   * `torch.cuda.device_count()` is the parameter `deviceCount`.
   */
  method DataParallel<V>(models: array<Module<V>>, gpuList: seq<int>, deviceCount: int)
    returns (r: Outcome<PlacementError>)
    modifies models
    ensures r == (if |gpuList| == 0 then Fail(NoGpu)
                  else if deviceCount < |gpuList| then Fail(TooFewDevices)
                  else Pass)
    ensures r.Fail? ==> models[..] == old(models[..])
    ensures r.Pass? ==> models[..] == PlaceAll(old(models[..]), |gpuList|)
  {
    var ngpus := |gpuList|;
    if ngpus == 0 {
      return Fail(NoGpu);
    }
    if deviceCount < ngpus {
      return Fail(TooFewDevices);
    }
    for i := 0 to models.Length
      invariant forall j :: 0 <= j < i ==> models[j] == Place(old(models[j]), ngpus)
      invariant forall j :: i <= j < models.Length ==> models[j] == old(models[j])
    {
      if ngpus >= 2 {
        models[i] := Wrapped(models[i]);
      } else {
        // `.cuda()` returns the same network
        models[i] := models[i];
      }
    }
    r := Pass;
  }

  /** After `dataparallel`, `get_dual_model(i)` gives back the i-th object placed. */
  lemma UnwrapPlaceAll<V>(models: seq<Module<V>>, ngpus: int, i: nat)
    requires ngpus >= 1 && i < |models|
    ensures Unwrap(ngpus, PlaceAll(models, ngpus)[i]) == Ok(models[i])
  {
    UnwrapPlaced(models[i], ngpus);
  }

  /** The network a slot ultimately holds, under any number of wrappers. */
  function Inner<V>(m: Module<V>): Net<V>
  {
    match m
    case Plain(n) => n
    case Wrapped(inner) => Inner(inner)
  }

  /** The number of data-parallel wrappers around a slot's network. */
  function Depth<V>(m: Module<V>): nat
  {
    match m
    case Plain(_) => 0
    case Wrapped(inner) => 1 + Depth(inner)
  }

  /**
   * `target.load_state_dict(sd, strict=False)` where `target` is the network
   * held by slot `m`: the network's parameters change, its wrappers do not,
   * however many there are.
   */
  function LoadInto<V>(m: Module<V>, sd: StateDict<V>): (r: Module<V>)
    ensures Inner(r) == Net(Inner(m).arch, LoadNonStrict(Inner(m).params, sd))
    ensures Depth(r) == Depth(m)
    ensures r.Plain? == m.Plain?
    ensures m.Wrapped? ==> r.wrapped.Plain? == m.wrapped.Plain?
  {
    match m
    case Plain(n) => Plain(Net(n.arch, LoadNonStrict(n.params, sd)))
    case Wrapped(inner) => Wrapped(LoadInto(inner, sd))
  }

  /** Loading a network's own parameters back into its slot changes nothing. */
  lemma {:induction false} LoadIntoOwn<V>(m: Module<V>)
    ensures LoadInto(m, Inner(m).params) == m
  {
    match m
    case Plain(n) => LoadOwnState(n.params);
    case Wrapped(inner) => LoadIntoOwn(inner);
  }
}
