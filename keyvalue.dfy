/** Labelled records such as /proc/meminfo and /proc/<pid>/status, read as a
    sequence of (label word, number) pairs in file order. */
module KeyValue {

  datatype Entry = Entry(key: string, value: int)

  /** Index of the last entry labelled `key`, or -1 when there is none. */
  function LastIndex(entries: seq<Entry>, key: string): (idx: int)
    ensures -1 <= idx < |entries|
    ensures idx >= 0 ==> entries[idx].key == key
    ensures forall k :: idx < k < |entries| ==> entries[k].key != key
  {
    if entries == [] then -1
    else if entries[|entries| - 1].key == key then |entries| - 1
    else LastIndex(entries[..|entries| - 1], key)
  }

  /** Index of the first entry labelled `key`, or |entries| when there is none. */
  function FirstIndex(entries: seq<Entry>, key: string): (idx: nat)
    ensures idx <= |entries|
    ensures idx < |entries| ==> entries[idx].key == key
    ensures forall k :: 0 <= k < idx ==> entries[k].key != key
  {
    if entries == [] then 0
    else if entries[0].key == key then 0
    else 1 + FirstIndex(entries[1..], key)
  }

  /** The value of the last entry labelled `key`, or 0 when there is none:
      what a scan that overwrites a zero-initialised local on every match
      ends with. */
  function LastValue(entries: seq<Entry>, key: string): (v: int)
    ensures (forall k :: 0 <= k < |entries| ==> entries[k].key != key) ==> v == 0
    ensures entries != [] && entries[|entries| - 1].key == key ==> v == entries[|entries| - 1].value
  {
    var i := LastIndex(entries, key);
    if i < 0 then 0 else entries[i].value
  }

  /** The value of the first entry labelled `key`, or 0 when there is none:
      what a scan that stops at the first match ends with. */
  function FirstValue(entries: seq<Entry>, key: string): (v: int)
    ensures (forall k :: 0 <= k < |entries| ==> entries[k].key != key) ==> v == 0
    ensures entries != [] && entries[0].key == key ==> v == entries[0].value
  {
    var i := FirstIndex(entries, key);
    if i == |entries| then 0 else entries[i].value
  }

  /** Appending an entry: the last value changes only when the entry carries
      the key, and then it is that entry's value. */
  lemma LastValueAppend(entries: seq<Entry>, e: Entry, key: string)
    ensures LastValue(entries + [e], key) == if e.key == key then e.value else LastValue(entries, key)
  {
  }

  /** Extending a prefix that holds no entry labelled `key` by one entry. */
  lemma FirstValueExtend(entries: seq<Entry>, i: nat, key: string)
    requires i < |entries|
    requires forall k :: 0 <= k < i ==> entries[k].key != key
    ensures entries[i].key == key ==> FirstValue(entries, key) == entries[i].value
    ensures entries[i].key != key ==> forall k :: 0 <= k < i + 1 ==> entries[k].key != key
  {
  }
}
