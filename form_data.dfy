/** The multipart body the menu-item forms build with `FormData.append`:
    entries in the order appended, looked up by their first occurrence as
    `FormData.get` does. */
module FormData {
  import opened Common

  /** A file the user picked, known here only by its name. */
  datatype FileRef = FileRef(name: string)

  datatype FormValue = Text(text: string) | Blob(file: FileRef)

  datatype Entry = Entry(key: string, value: FormValue)

  function Keys(fd: seq<Entry>): (ks: seq<string>)
    ensures |ks| == |fd| && forall i :: 0 <= i < |fd| ==> ks[i] == fd[i].key
  {
    if fd == [] then [] else [fd[0].key] + Keys(fd[1..])
  }

  /** `formData.get(key)`: the value of the first entry with that key. */
  function Get(fd: seq<Entry>, key: string): (r: Option<FormValue>)
    ensures r.None? <==> key !in Keys(fd)
    ensures r.Some? ==> Entry(key, r.value) in fd
  {
    if fd == [] then None
    else if fd[0].key == key then Some(fd[0].value)
    else Get(fd[1..], key)
  }

  /** Appending an entry does not change what earlier keys read as. */
  lemma {:induction false} GetAppend(fd: seq<Entry>, e: Entry, key: string)
    ensures key in Keys(fd) ==> Get(fd + [e], key) == Get(fd, key)
    ensures key !in Keys(fd) && e.key == key ==> Get(fd + [e], key) == Some(e.value)
  {
    if fd != [] {
      assert (fd + [e])[1..] == fd[1..] + [e];
      if fd[0].key != key {
        GetAppend(fd[1..], e, key);
      }
    }
  }

  /** An entry whose key no earlier entry has is what `get` reads for that key. */
  lemma {:induction false} GetFirst(fd: seq<Entry>, i: nat)
    requires i < |fd|
    requires forall j :: 0 <= j < i ==> fd[j].key != fd[i].key
    ensures Get(fd, fd[i].key) == Some(fd[i].value)
  {
    if i > 0 {
      GetFirst(fd[1..], i - 1);
    }
  }

  /** No key is appended twice. */
  predicate DistinctKeys(fd: seq<Entry>) {
    forall i, j :: 0 <= i < j < |fd| ==> fd[i].key != fd[j].key
  }

  /** In a body without repeated keys, `get` reads every entry back. */
  lemma GetDistinct(fd: seq<Entry>, i: nat)
    requires DistinctKeys(fd) && i < |fd|
    ensures Get(fd, fd[i].key) == Some(fd[i].value)
  {
    GetFirst(fd, i);
  }
}
