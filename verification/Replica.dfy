/** The replicated database: six blocks of typed rows, the mutations that change
    them, and the root that pairs a content with the stream position it stands for. */
module Replica {
  import opened Wrappers

  const QUEUE_LIMIT: nat := 8 * 1024 * 1024
  const WORD_MAX: nat := 0xFFFF_FFFF_FFFF_FFFF
  const ROUNDS_MAX: nat := 8

  /** Position of a block in N, C, I, S, L, K. */
  type Block = b: nat | b < 6
  const LINES: Block := 5
  const ALL_BLOCKS: set<Block> := {0, 1, 2, 3, 4, 5}

  type Key = seq<string>

  datatype Value = Absent | Text(text: string) | Number(number: nat)

  type Content = map<Key, Value>

  const EMPTY_DATABASE: seq<Content> := [map[], map[], map[], map[], map[], map[]]

  type Database = d: seq<Content> | |d| == 6 witness EMPTY_DATABASE

  /** The server and instance epoch that originate a sequence of mutations. */
  datatype Stream = Stream(sid: string, epoch: nat)

  datatype Op =
    | Put(block: Block, key: Key, value: Value)
    | DeletePrefix(block: Block, key: Key)
    | DropBlock(block: Block)
    | Expire(key: Key, expected: nat)

  function Without(content: Content, prefix: Key): Content {
    map k | k in content && !(prefix <= k) :: content[k]
  }

  /** EXPIRE is compare-and-delete: it applies only to the expiry it names. */
  predicate Due(db: Database, key: Key, expected: nat) {
    var row := key + ["expires"];
    row in db[LINES] && db[LINES][row] == Number(expected)
  }

  function Apply(db: Database, op: Op): Database {
    match op
    case Put(block, key, value) => db[block := db[block][key := value]]
    case DeletePrefix(block, key) => db[block := Without(db[block], key)]
    case DropBlock(block) => db[block := map[]]
    case Expire(key, expected) => if Due(db, key, expected) then db[LINES := Without(db[LINES], key)] else db
  }

  /** A mutation with its position in the stream. */
  datatype Mark = Mark(seqno: nat, op: Op)

  function ApplyAll(db: Database, marks: seq<Mark>): Database {
    if marks == [] then db else Apply(ApplyAll(db, marks[..|marks| - 1]), marks[|marks| - 1].op)
  }

  /** marks are exactly the positions after start, in order. */
  predicate Contiguous(marks: seq<Mark>, start: nat) {
    forall i | 0 <= i < |marks| :: marks[i].seqno == start + 1 + i
  }

  /** A committed generation: what the six active roots hold, and the last
      mutation of which stream they include. */
  datatype Root = Root(db: Database, stream: Stream, seqno: nat)

  /** An advertised block digest. The hash is taken as ideal: a digest either
      names one content or none that anybody holds. */
  datatype Digest = Of(content: Content) | Unmatched(tag: nat)
}
