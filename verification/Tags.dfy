/** The table of heap-allocated tags a handler lends to gRPC.

  A tag is a C++ heap object; what travels through the completion queue is its
  address. An address is a natural number, and the allocator's choice of a new
  one is a parameter: `new` may return any address that is not in use, including
  one that was freed earlier.
 */
module Tags {

  datatype Option<+T> = None | Some(value: T)

  type Address = nat

  type Thread = nat

  /** What a tag says: which object it belongs to and why it was handed out. */
  datatype Tag<L> = Tag(data: Address, kind: L)

  /** Some live tag carries exactly this content. */
  ghost predicate Named<L(!new)>(tags: map<Address, Tag<L>>, tag: Tag<L>) {
    exists t :: t in tags && tags[t] == tag
  }

  /** The `tags` map together with `make_tag` and `get_tag`. */
  class TagTable<L> {
    var tags: map<Address, Tag<L>>

    constructor ()
      ensures tags == map[]
    {
      tags := map[];
    }

    /** `slot` is the address the allocator picked for the new tag. */
    method MakeTag(data: Address, kind: L, slot: Address) returns (key: Address)
      requires slot !in tags
      modifies this`tags
      ensures key == slot
      ensures tags == old(tags)[key := Tag(data, kind)]
    {
      key := slot;
      tags := tags[key := Tag(data, kind)];
    }

    /** `None` is the failed assertion (library) or the thrown error (example server). */
    method GetTag(key: Address) returns (tag: Option<Tag<L>>)
      modifies this`tags
      ensures key in old(tags) ==> tag == Some(old(tags)[key]) && tags == old(tags) - {key}
      ensures key !in old(tags) ==> tag == None && tags == old(tags)
    {
      if key !in tags {
        tag := None;
      } else {
        tag := Some(tags[key]);
        tags := tags - {key};
      }
    }
  }
}
