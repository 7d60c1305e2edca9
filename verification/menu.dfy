/** The start menu's cursor: four entries (1 Create New Project, 2 About, 3 Exit,
    4 Import .ino file), moved by the arrow keys with wrap-around and chosen with
    Enter. Key presses are an input sequence; drawing the menu is not modelled. */
module Menu {
  /** The keys the menu tells apart; every other key leaves the cursor alone. */
  datatype Key = Up | Down | Enter | Other

  const CreateNewProject := 1
  const About := 2
  const Exit := 3
  const ImportIno := 4

  /** The cursor after one key: Up moves to the previous entry and from the first to
      the last, Down to the next and from the last to the first. */
  function Press(option: int, key: Key): (r: int)
    requires 1 <= option <= 4
    ensures 1 <= r <= 4
    ensures key == Up ==> r - 1 == (option - 2) % 4
    ensures key == Down ==> r - 1 == option % 4
    ensures key == Enter || key == Other ==> r == option
  {
    match key
    case Up => if option == 1 then 4 else option - 1
    case Down => if option == 4 then 1 else option + 1
    case _ => option
  }

  /** The cursor after a run of keys, starting from `option`. */
  function Cursor(option: int, keys: seq<Key>): (r: int)
    requires 1 <= option <= 4
    ensures 1 <= r <= 4
    decreases keys
  {
    if keys == [] then option else Cursor(Press(option, keys[0]), keys[1..])
  }

  /** How many times `key` occurs in `keys`. */
  function Count(keys: seq<Key>, key: Key): nat
  {
    if keys == [] then 0 else (if keys[0] == key then 1 else 0) + Count(keys[1..], key)
  }

  /** What the menu loop does with a stream of keys: starting on the first entry, it
      moves the cursor until Enter is pressed, and then stops reading. `used` is the
      number of keys read; without an Enter every key is read and nothing is chosen. */
  method Select(keys: seq<Key>) returns (option: int, isSelected: bool, used: nat)
    ensures 1 <= option <= 4 && used <= |keys|
    ensures option == Cursor(CreateNewProject, keys[..used])
    ensures isSelected <==> Enter in keys
    ensures isSelected ==> 0 < used && keys[used - 1] == Enter && Enter !in keys[..used - 1]
    ensures !isSelected ==> used == |keys|
  {
    option, isSelected, used := CreateNewProject, false, 0;
    while !isSelected && used < |keys|
      invariant 1 <= option <= 4 && used <= |keys|
      invariant option == Cursor(CreateNewProject, keys[..used])
      invariant isSelected ==> 0 < used && keys[used - 1] == Enter && Enter !in keys[..used - 1]
      invariant !isSelected ==> Enter !in keys[..used]
    {
      var key := keys[used];
      CursorSnoc(CreateNewProject, keys[..used], key);
      assert keys[..used + 1] == keys[..used] + [key];
      match key {
        case Up =>
          option := if option == 1 then 4 else option - 1;
        case Down =>
          option := if option == 4 then 1 else option + 1;
        case Enter =>
          isSelected := true;
        case Other =>
      }
      used := used + 1;
    }
    if !isSelected {
      assert keys[..used] == keys;
    } else {
      assert keys == keys[..used] + keys[used..];
    }
  }

  /** Pressing one more key moves on from where the run left the cursor. */
  lemma {:induction false} CursorSnoc(option: int, keys: seq<Key>, key: Key)
    requires 1 <= option <= 4
    ensures Cursor(option, keys + [key]) == Press(Cursor(option, keys), key)
    decreases keys
  {
    if keys != [] {
      assert (keys + [key])[1..] == keys[1..] + [key];
      CursorSnoc(Press(option, keys[0]), keys[1..], key);
    }
  }

  /** Up undoes Down and Down undoes Up. */
  lemma UpDownInverse(option: int)
    requires 1 <= option <= 4
    ensures Press(Press(option, Up), Down) == option
    ensures Press(Press(option, Down), Up) == option
  {
  }

  /** Adding a multiple of four does not change a remainder by four. */
  lemma ModShift(x: int, y: int)
    ensures (x % 4 + y) % 4 == (x + y) % 4
  {
    assert x == 4 * (x / 4) + x % 4;
    ModMultiple(x % 4 + y, x / 4);
  }

  lemma ModMultiple(z: int, m: int)
    ensures (z + 4 * m) % 4 == z % 4
  {
  }

  /** Where the cursor ends up depends only on how many Down and Up keys were pressed:
      it moves forward by the Downs less the Ups, counted round the four entries. */
  lemma {:induction false} CursorByCounts(option: int, keys: seq<Key>)
    requires 1 <= option <= 4
    ensures Cursor(option, keys) - 1 == (option - 1 + Count(keys, Down) - Count(keys, Up)) % 4
    decreases keys
  {
    if keys == [] {
    } else {
      var next := Press(option, keys[0]);
      CursorByCounts(next, keys[1..]);
      var d := Count(keys[1..], Down) - Count(keys[1..], Up);
      match keys[0] {
        case Up => ModShift(option - 2, d);
        case Down => ModShift(option, d);
        case Enter =>
        case Other =>
      }
    }
  }

  /** Four presses of Down, or of Up, bring the cursor back where it was. */
  lemma FullCircle(option: int)
    requires 1 <= option <= 4
    ensures Cursor(option, [Down, Down, Down, Down]) == option
    ensures Cursor(option, [Up, Up, Up, Up]) == option
  {
    CursorByCounts(option, [Down, Down, Down, Down]);
    CursorByCounts(option, [Up, Up, Up, Up]);
  }
}
