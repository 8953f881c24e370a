/** Types shared by the producer, the consumer and the assignors. */
module Types {

  datatype Option<+T> = None | Some(value: T)

  lemma ConcatAssoc<T>(a: seq<T>, b: seq<T>, c: seq<T>)
    ensures (a + b) + c == a + (b + c)
  {
  }

  lemma ConcatNil<T>(a: seq<T>)
    ensures [] + a == a && a + [] == a
  {
  }

  datatype TopicPartition = TopicPartition(topic: string, partition: int)
}
