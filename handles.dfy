/**
 * The binding's handle objects. A Connector owns a native participant and the
 * `C.CString` name buffer of every Input and Output it has handed out; the
 * Input, Output, Instance, Samples and Infos objects point at one another the
 * way the Go structs do. Every back-pointer is nullable, because the Go structs
 * are public and their zero values (all pointers nil) can be built by users.
 */
module Handles {
  import opened Native

  /** The copy of an Input or Output that the connector keeps in its `Inputs`/`Outputs` slice. */
  datatype Entry = Entry(native: Ptr, name: string, nameBuf: Ptr)

  /** The name buffers of some entries, in order. */
  function NameBufs(entries: seq<Entry>): (bufs: seq<Ptr>)
    ensures |bufs| == |entries|
    ensures forall i :: 0 <= i < |entries| ==> bufs[i] == entries[i].nameBuf
  {
    seq(|entries|, i requires 0 <= i < |entries| => entries[i].nameBuf)
  }

  /** `Connector`: the native participant and the registered readers and writers. */
  class Connector {
    var native: Ptr
    var inputs: seq<Entry>
    var outputs: seq<Entry>

    constructor (native: Ptr)
      ensures this.native == native && inputs == [] && outputs == []
    {
      this.native := native;
      inputs, outputs := [], [];
    }

    /** Every name buffer the connector must release, readers first (the order Delete releases them). */
    function NameBuffers(): (bufs: seq<Ptr>)
      reads this
      ensures |bufs| == |inputs| + |outputs|
    {
      NameBufs(inputs) + NameBufs(outputs)
    }

    /**
     * A live connector holds a live participant handle and owns each registered
     * name buffer exactly once; a deleted one (NULL handle) has no registrations left.
     */
    ghost predicate Valid(lib: Library)
      reads this, lib
    {
      && lib.Valid()
      && (native.Addr? ==> native.id in lib.participants)
      && (native == Null ==> inputs == [] && outputs == [])
      && Owned(lib.heap, NameBuffers())
    }
  }

  /** `Output`: a DataWriter handle, its connector, its name and the name buffer. */
  class Output {
    const native: Ptr
    const connector: Connector?
    const name: string
    const nameBuf: Ptr
    var instance: Instance?

    /** `newOutput`'s object with `newInstance` already attached. */
    constructor (native: Ptr, connector: Connector?, name: string, nameBuf: Ptr)
      ensures this.native == native && this.connector == connector
      ensures this.name == name && this.nameBuf == nameBuf
      ensures instance != null && fresh(instance) && instance.output == this
    {
      this.native := native;
      this.connector := connector;
      this.name := name;
      this.nameBuf := nameBuf;
      new;
      instance := new Instance(this);
    }
  }

  /** `Input`: a DataReader handle, its connector, its name and the name buffer. */
  class Input {
    const native: Ptr
    const connector: Connector?
    const name: string
    const nameBuf: Ptr
    var samples: Samples?
    var infos: Infos?

    /** `newInput`'s object with `newSamples` and `newInfos` already attached. */
    constructor (native: Ptr, connector: Connector?, name: string, nameBuf: Ptr)
      ensures this.native == native && this.connector == connector
      ensures this.name == name && this.nameBuf == nameBuf
      ensures samples != null && fresh(samples) && samples.input == this
      ensures infos != null && fresh(infos) && infos.input == this
    {
      this.native := native;
      this.connector := connector;
      this.name := name;
      this.nameBuf := nameBuf;
      new;
      samples := new Samples(this);
      infos := new Infos(this);
    }
  }

  /** `Instance`: the staging sample of an Output. */
  class Instance {
    const output: Output?

    constructor (output: Output?)
      ensures this.output == output
    {
      this.output := output;
    }
  }

  /** `Samples`: the data of the samples last read or taken by an Input. */
  class Samples {
    const input: Input?

    constructor (input: Input?)
      ensures this.input == input
    {
      this.input := input;
    }
  }

  /** `Infos`: the metadata of the samples last read or taken by an Input. */
  class Infos {
    const input: Input?

    constructor (input: Input?)
      ensures this.input == input
    {
      this.input := input;
    }
  }
}
