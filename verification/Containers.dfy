/** Containers in memory and on disk, and the log they form, updated in place. */
module Containers {
  import opened Bytes
  import opened Names
  import opened Options
  import L = Log

  /** A directory of container files. */
  class Directory {
    var files: map<Name, Bytes>

    constructor ()
      ensures files == map[]
    {
      files := map[];
    }
  }

  class Container {
    var used: nat
    const body: array<byte>

    constructor (capacity: nat)
      ensures used == 0 && body.Length == capacity && fresh(body)
    {
      used := 0;
      body := new byte[capacity](_ => 0);
    }

    ghost function Content(): Bytes
      reads this, body
      requires used <= body.Length
    {
      body[..used]
    }

    method SaveToFile(name: Name, dir: Directory)
      requires used <= body.Length
      modifies dir
      ensures dir.files == old(dir.files)[name := Content()]
    {
      dir.files := dir.files[name := body[..used]];
    }

    /** Copies `data` in behind the bytes in use, without taking them into use yet. */
    method Copy(data: array<byte>, length: nat)
      requires length <= data.Length && used + length <= body.Length && data != body
      modifies body
      ensures Content() == old(Content())
      ensures body[used..used + length] == data[..length]
    {
      forall i | 0 <= i < length {
        body[used + i] := data[i];
      }
    }

    /** Copies bytes in use out. */
    method Read(offset: nat, length: nat) returns (data: Bytes)
      requires used <= body.Length && offset + length <= used
      ensures data == Content()[offset..offset + length]
    {
      data := body[offset..offset + length];
      assert data == body[..used][offset..offset + length];
    }

    /** Loads a whole file. */
    method Load(content: Bytes)
      requires |content| <= body.Length
      modifies this, body
      ensures used == |content| && Content() == content
    {
      forall i | 0 <= i < |content| {
        body[i] := content[i];
      }
      used := |content|;
    }
  }

  /** The open container, the read cache and their directory. `StorageCore` and `DeltaCompressor`
      each keep one. */
  class ContainerLog {
    const disk: Directory
    const current: Container
    const cached: Container
    const max: nat
    var openName: Name
    var cacheName: Name

    ghost predicate Valid()
      reads this, disk, current, cached
    {
      && current != cached && current.body != cached.body
      && current.used <= current.body.Length && cached.used <= cached.body.Length
      && max <= current.body.Length == cached.body.Length
      && forall n :: n in disk.files ==> |disk.files[n]| <= cached.body.Length
    }

    ghost function Model(): L.Log
      reads this, disk, current, current.body, cached, cached.body
      requires Valid()
    {
      L.Log(max, disk.files, openName, current.Content(), cacheName, cached.Content())
    }

    ghost function Repr(): set<object> {
      {this, disk, current, current.body, cached, cached.body}
    }

    /** Starts from the last open container, or from scratch. */
    constructor (disk: Directory, max: nat, capacity: nat, config: L.Config, initial: Name)
      requires max <= capacity && forall n :: n in disk.files ==> |disk.files[n]| <= capacity
      requires L.Loadable(disk.files, config, capacity)
      ensures Valid() && fresh(Repr() - {disk}) && this.disk == disk && this.max == max
      ensures cached.body.Length == capacity
      ensures Model()
              == L.Log(max, disk.files, L.OpenNameOf(config, initial),
                       L.LoadedOpen(disk.files, config, capacity), [], [])
      ensures config.None? ==> openName == initial && current.used == 0
      ensures config.Some? ==>
                && openName == config.value.0 && current.used == config.value.1
                && (openName in disk.files ==> current.Content() == disk.files[openName][..current.used])
    {
      this.disk := disk;
      this.max := max;
      this.current := new Container(capacity);
      this.cached := new Container(capacity);
      this.openName := L.OpenNameOf(config, initial);
      this.cacheName := [];
      new;
      if config.Some? {
        current.Load(L.LoadedOpen(disk.files, config, capacity));
      }
    }

    /** Places the bytes in the open container, sealing it first if they do not fit below the
        maximum; the caller takes them into use. */
    method WriteContainer(key: L.Entry, data: array<byte>) returns (key': L.Entry, rolled: bool)
      requires Valid() && key.length <= data.Length && data !in Repr()
      requires key.length <= current.body.Length
      modifies `openName, disk, current, current.body
      ensures Valid() && rolled == L.Rolls(old(Model()), key.length)
      ensures Model() == L.MadeRoom(old(Model()), key.length)
      ensures key' == key.(name := openName, offset := current.used)
      ensures rolled <==> old(current.used) + key.length >= max
      ensures !rolled ==>
                openName == old(openName) && current.used == old(current.used) && disk.files == old(disk.files)
      ensures rolled ==>
                && openName == NextPermutation(old(openName)) && current.used == 0
                && disk.files == old(disk.files)[old(openName) := old(current.body[..current.used])]
      ensures current.used + key.length <= current.body.Length
      ensures current.body[current.used..current.used + key.length] == data[..key.length]
    {
      rolled := !(key.length + current.used < max);
      if rolled {
        current.SaveToFile(openName, disk);
        openName := NextPermutation(openName);
        current.used := 0;
      }
      current.Copy(data, key.length);
      key' := key.(name := openName, offset := current.used);
    }

    lemma OpenLength()
      requires Valid()
      ensures Model().openName == openName && |Model().open| == current.used
    {
    }

    /** Takes the bytes placed behind the open container into use. */
    method TakeIn(length: nat)
      requires Valid() && current.used + length <= current.body.Length
      modifies current
      ensures Valid()
      ensures Model()
              == old(Model()).(open := old(Model()).open + old(current.body[current.used..current.used + length]))
    {
      current.used := current.used + length;
      assert current.Content() == old(current.Content()) + old(current.body[current.used..current.used + length]);
    }

    /** Places the bytes and takes them into use. */
    method Append(key: L.Entry, data: array<byte>) returns (key': L.Entry, rolled: bool)
      requires Valid() && key.length <= data.Length && data !in Repr()
      requires key.length < max
      modifies `openName, disk, current, current.body
      ensures Valid() && rolled == L.Rolls(old(Model()), key.length)
      ensures Model() == L.Append(old(Model()), data[..key.length])
      ensures key' == L.Placed(old(Model()), key, data[..key.length])
      ensures old(current.used) + key.length < max ==>
                key' == key.(name := old(openName), offset := old(current.used)) && disk.files == old(disk.files)
      ensures old(current.used) + key.length >= max ==>
                && key' == key.(name := NextPermutation(old(openName)), offset := 0)
                && disk.files == old(disk.files)[old(openName) := old(current.body[..current.used])]
    {
      hide NextPermutation;
      key', rolled := WriteContainer(key, data);
      TakeIn(key.length);
    }

    /** Reads the bytes of a record from the cache, the open container or its file. */
    method ReadContainer(key: L.Entry) returns (ok: bool, data: Bytes)
      requires Valid()
      requires L.Source(Model(), key.name).Some? ==> L.Fits(key, L.Source(Model(), key.name).value)
      modifies `cacheName, cached, cached.body
      ensures Valid() && Model() == L.AfterRead(old(Model()), key.name)
      ensures ok == L.Source(old(Model()), key.name).Some?
      ensures ok ==> data == L.Cut(key, L.Source(old(Model()), key.name).value)
    {
      if key.name == cacheName {
        assert L.Source(Model(), key.name) == Some(cached.Content());
        ok := true;
        data := cached.Read(key.offset, key.length);
      } else if key.name == openName {
        ok := true;
        data := current.Read(key.offset, key.length);
      } else if key.name !in disk.files {
        ok, data := false, [];
      } else {
        cached.Load(disk.files[key.name]);
        ok := true;
        data := cached.Read(key.offset, key.length);
        cacheName := key.name;
      }
    }
  }
}
