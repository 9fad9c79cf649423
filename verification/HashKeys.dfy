/** The keys of a hash table. */
module HashKeys {
  /** A key with the hash value the table computes from it; a table of n buckets puts it into bucket hash % n. */
  datatype Key = Key(name: nat, hash: nat)
}
