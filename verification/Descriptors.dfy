/** The wire descriptor of a backing, and the gate every descriptor passes before it is trusted. */
module Descriptors {
  import opened Prelude
  import opened BufferAccess
  import opened LittleEndian

  // Canonical identity: the owner's nonce, a number the owner burns once, and a generation.
  datatype Identity = Identity(owner: Bytes, id: nat, generation: nat)

  datatype Space = Host | Device
  datatype Access = Read | Write | ReadWrite

  datatype Descriptor = Descriptor(identity: Identity, space: Space, access: Access, backend: BackendKind, nbytes: nat,
                                   body: Bytes, ownerPath: nat)

  const ADDRESS_BODY_BYTES: nat := 8

  predicate DeviceBackend(b: BackendKind) { b == VmmWindow || b == DeviceMalloc || b == VmmShareable }

  // The part of the construction gate that imports rely on.
  predicate Gated(d: Descriptor) {
    && d.identity.generation != 0
    && (d.backend != RemoteSidecar ==> (DeviceBackend(d.backend) <==> d.space == Device))
    && (d.backend == ForkCow ==> d.access == Read)
    && (d.backend in {ForkShm, ForkCow, DeviceMalloc, VmmWindow} ==> |d.body| == ADDRESS_BODY_BYTES)
  }

  // A device pointer wrapped as a descriptor: the body is the pointer.
  function DeviceMallocDescriptor(n: Identity, access: Access, base: nat, nbytes: nat): Descriptor {
    Descriptor(n, Device, access, DeviceMalloc, nbytes, Little(base, ADDRESS_BODY_BYTES), 0)
  }

  // The address an address-bodied descriptor carries.
  function BodyAddress(d: Descriptor): nat { FromLittle(d.body) }

  lemma EightBytes()
    ensures Pow256(8) == UINT64_MAX + 1
  {
    assert Pow256(4) == 0x1_0000_0000;
    assert Pow256(8) == 256 * (256 * (256 * (256 * Pow256(4))));
  }

  // The wrapped pointer survives the trip through the descriptor.
  lemma WrappedAddress(n: Identity, access: Access, base: nat, nbytes: nat)
    requires base <= UINT64_MAX
    ensures BodyAddress(DeviceMallocDescriptor(n, access, base, nbytes)) == base
  {
    EightBytes();
    LittleRoundTrip(base, 8);
  }
}
