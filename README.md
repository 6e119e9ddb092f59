# Linked list with iterator, and a move-only Person

This project models two small components of a C++ bootcamp repository and
proves their contracts in Dafny.

- `RangeBasedFor` (`range_based_for.dfy`) models `src/range_based_for.cpp`.
  It has a doubly linked list of `int`, `DLL`, built only by head insertion.
  Its nested iterator `DLLIterator` supports prefix `++`, `!=`, `*` and an
  unchecked `+ offset`. The list carries three ghost fields. `nodes` is the
  chain of `Node` objects from the head. `Contents` is the values along that
  chain. `Repr` is the set of nodes the list owns. `Valid()` ties them to the
  real fields:
  - every node of the chain is in `Repr`;
  - `size` is the length of the chain;
  - `head` is its first node;
  - each `next` is the following node and the last one is null;
  - each `prev` is the preceding node and the head's is null;
  - no node appears twice, so the chain has no cycle.

  An iterator is related to a list by `At(l, k)`: it points at the node at
  position `k`, or is null when `k` is the length. The iterator operations
  take the list and the position as ghost parameters. `*` and `!=` only read,
  so they are functions; `++` and `+ offset` change the iterator, so they are
  methods. `Follow(n, m)` chases
  `next` pointers `m` times. `StepsReach` proves that this pointer chasing
  agrees with the ghost chain.
- `MoveConstructors` (`move_constructors.dfy`) models
  `src/move_constructors.cpp`. `Person` holds a `uint32_t` age (the newtype
  `u32`), a nickname list and a `valid` flag. The move constructor
  (`FromMoved`) and the move assignment (`MoveAssign`) update both objects.
  There is no copy operation, matching the deleted copy constructor and copy
  assignment.

`operator=` (src/move_constructors.cpp:68-77) has no self-assignment guard
and writes `other.valid_ = false` last, so moving a Person into itself
leaves it invalid. `MoveAssign` states `valid <==> other != this`, and
`SelfMoveDemo` shows the outcome.

## Model

| member | source | states |
|---|---|---|
| `RangeBasedFor.Node.constructor` | src/range_based_for.cpp:5 | a new node holds the given value and both links are null |
| `RangeBasedFor.DLL.constructor` | src/range_based_for.cpp:14 | a new list is valid and empty: null head, size 0, no nodes, no contents |
| `RangeBasedFor.DLL.Begin` | src/range_based_for.cpp:56 | `begin()` is a new iterator at position 0, on the head node (the end iterator when the list is empty) |
| `RangeBasedFor.DLL.End` | src/range_based_for.cpp:58 | `end()` is a new iterator on no node, at position `size`, whatever the list holds |
| `RangeBasedFor.DLL.InsertAtHead` | src/range_based_for.cpp:60-70 | the list stays valid; the new fresh node is first and the old chain follows unchanged; the contents become `[val] + old`; size grows by exactly 1; the new head's `prev` is null and the old head's `prev` is the new node; only the list and the old head are written |
| `RangeBasedFor.DLL.Destroy` | src/range_based_for.cpp:16-24 | the destructor walk lets go of every node of the chain in chain order, each exactly once (`size` nodes, pairwise distinct), and leaves `head` null |
| `RangeBasedFor.StepsReach` | src/range_based_for.cpp:33-36 | following `next` `m` times from the node at position `k` reaches the node at position `k + m`, or null exactly when that is the end |
| `RangeBasedFor.EndAfterSize` | src/range_based_for.cpp:33-40 | from the head, `size` steps along `next` reach null (`end()`) and no fewer steps do |
| `RangeBasedFor.DLLIterator.constructor` | src/range_based_for.cpp:31 | an iterator starts on the node it is given |
| `RangeBasedFor.DLLIterator.Next` | src/range_based_for.cpp:33-36 | prefix `++` requires the iterator not to be at the end, moves it to `curr.next`, which is the next position of the list, and returns the same iterator |
| `RangeBasedFor.DLLIterator.NotEqual` | src/range_based_for.cpp:38-40 | for two iterators over one valid list, the pointer comparison `!=` is true exactly when their positions differ |
| `RangeBasedFor.DLLIterator.Deref` | src/range_based_for.cpp:42 | `*` requires the iterator not to be at the end and yields the list element at its position |
| `RangeBasedFor.DLLIterator.Plus` | src/range_based_for.cpp:44-49 | `+ offset` requires `offset` to be at most the remaining length; it moves the same iterator by exactly `offset` single `next` steps and returns it |
| `RangeBasedFor.Traverse` | src/range_based_for.cpp:92-95 | the loop from `begin()` while `!= end()` with `*` and `++` visits exactly the list's contents, in chain order, and stops after exactly `size` steps |
| `RangeBasedFor.BuildDemoList` | src/range_based_for.cpp:78-84 | inserting 6, 5, 4, 3, 2, 1 at the head gives a valid list of size 6 holding 1, 2, 3, 4, 5, 6 |
| `RangeBasedFor.IterationDemo` | src/range_based_for.cpp:86-102 | walking the demo list yields 1 2 3 4 5 6; `*begin()` is 1 and `*(begin() + 2)` is 3 |
| `MoveConstructors.Person.constructor` | src/move_constructors.cpp:41 | default construction gives age 0, no nicknames, valid |
| `MoveConstructors.Person.WithNicknames` | src/move_constructors.cpp:46-47 | construction keeps the given age and the given nickname list unchanged, and is valid |
| `MoveConstructors.Person.FromMoved` | src/move_constructors.cpp:59-65 | the new Person has the source's age and nicknames and is valid; the source is invalid and keeps its age |
| `MoveConstructors.Person.MoveAssign` | src/move_constructors.cpp:68-77 | the target takes the source's age and, for distinct objects, its nicknames; the source ends invalid and keeps its age; the target ends valid exactly when it is not the source; the target is returned |
| `MoveConstructors.Person.GetAge` | src/move_constructors.cpp:84 | returns the age and changes nothing, the flag included |
| `MoveConstructors.Person.GetNicknameAtI` | src/move_constructors.cpp:90 | reading through the returned reference requires `i` in range, yields the `i`-th nickname and changes nothing |
| `MoveConstructors.Person.SetNicknameAtI` | src/move_constructors.cpp:90 | writing through the returned reference requires `i` in range and changes only the `i`-th nickname; age and flag are unchanged |
| `MoveConstructors.Person.IsValid` | src/move_constructors.cpp:92-98 | the validity query returns the flag and changes nothing |
| `MoveConstructors.MoveDemo` | src/move_constructors.cpp:112-141 | after `andy1 = move(andy)` and `andy2(move(andy1))`, `andy2` is valid with age 15445 and nicknames ["andy", "pavlo"], and `andy` and `andy1` are invalid |
| `MoveConstructors.SelfMoveDemo` | src/move_constructors.cpp:68-77 | moving a valid Person into itself leaves it invalid, with its age unchanged |

## Left out

- Memory release (`delete`) and allocation failure are not modelled. `new` always succeeds. The destructor is the pointer walk plus a ghost log of the nodes it lets go of.
- RangeBasedFor.DLL.Destroy: the list is not `Valid()` afterwards. `size` keeps its old value, as in the source, while `head` is null; nothing may use the list after destruction.
- The C++ `int value_` of a node (src/range_based_for.cpp:9) is an unbounded `int`; nothing in the list does arithmetic on the values, so no overflow can arise.
- MoveConstructors.Person.WithNicknames: takes the nickname list as a value; the caller's `std::vector` passed by `&&` is left moved-from in C++ (src/move_constructors.cpp:46-47), which the model does not show.
- `size_t` wrap-around of `size_` and of the `+` offset is not modelled. Both are `nat`; wrapping `size_` would take 2^64 nodes.
- The range-based `for` (src/range_based_for.cpp:87-89) expands to the same `begin()`/`!=`/`++`/`*` loop as the explicit iterator loop. `Traverse` models both, and the printed values become its `visited` result.
- RangeBasedFor.DLLIterator.NotEqual: specified only for two iterators over the same valid list, which covers every comparison in the source (`iter != dll.end()`); the C++ pointer comparison also accepts iterators over different lists.
- Iterator lifetime is not modelled: an iterator must not outlive its list, but the model does not track that. The ghost list and position parameters exist only for reasoning.
- MoveConstructors.Person.FromMoved: does not say what the moved-from nickname list holds, because `std::vector` leaves a moved-from vector valid but unspecified.
- MoveConstructors.Person.MoveAssign: does not say what the moved-from nickname list holds, nor what the nicknames are after a self move, because `std::vector` leaves both unspecified.
- The deleted copy constructor and copy assignment (src/move_constructors.cpp:81-82) are compile-time rules. They are reflected only by the absence of any copy operation.
- All console output is left out. `PrintValid` becomes the pure query `IsValid`, and the printing in the move constructor and move assignment is dropped.
- src/vectors.cpp and src/move_semantics.cpp are not part of this model. They demonstrate `std::vector` and `std::move` library behaviour with console output.
