/** The fixed category lists offered after an amount is entered, and the
    inline keyboard that lays them out two buttons per row. */
module Keyboard {

  /** The expense categories, in the order they are offered. */
  const ExpenseCategories: seq<string> := ["Еда", "Транспорт", "Развлечения", "Жилье", "Другое"]

  /** The income categories, in the order they are offered. */
  const IncomeCategories: seq<string> := ["Зарплата", "Фриланс", "Подарки", "Другое"]

  function Min(a: int, b: int): int {
    if a <= b then a else b
  }

  /** `[items[i:i+2] for i in range(0, len(items), 2)]`: consecutive rows of
      two, the last row cut short when the list has odd length. Each
      button's text and callback data are the category itself, so a row of
      buttons is modelled as the row of categories. `Rows2At` shows that row
      `j` is the slice starting at `2 * j`, as in the comprehension. */
  function Rows2<T>(items: seq<T>): seq<seq<T>>
    decreases |items|
  {
    if items == [] then []
    else if |items| <= 2 then [items]
    else [items[..2]] + Rows2(items[2..])
  }

  /** The rows read left to right, top to bottom. */
  function Flatten<T>(rows: seq<seq<T>>): seq<T> {
    if rows == [] then [] else rows[0] + Flatten(rows[1..])
  }

  /** A slice of a suffix is a slice of the whole list, shifted. */
  lemma SliceOfSuffix<T>(s: seq<T>, d: nat, lo: nat, hi: nat)
    requires d + hi <= |s| && lo <= hi
    ensures s[d..][lo..hi] == s[d + lo .. d + hi]
  {
    forall k | 0 <= k < hi - lo ensures s[d..][lo..hi][k] == s[d + lo .. d + hi][k] {
      assert s[d..][lo..hi][k] == s[d + lo + k];
    }
  }

  /** There are `ceil(n / 2)` rows, and row `j` holds the items from index
      `2 * j` up to, but excluding, `2 * j + 2` or the end of the list. */
  lemma {:induction false} Rows2At<T>(items: seq<T>)
    ensures |Rows2(items)| == (|items| + 1) / 2
    ensures forall j :: 0 <= j < |Rows2(items)| ==> Rows2(items)[j] == items[2 * j .. Min(2 * j + 2, |items|)]
    decreases |items|
  {
    if |items| > 2 {
      var rows, rest := Rows2(items), Rows2(items[2..]);
      Rows2At(items[2..]);
      forall j | 0 <= j < |rows| ensures rows[j] == items[2 * j .. Min(2 * j + 2, |items|)] {
        if j > 0 {
          assert rows[j] == rest[j - 1];
          SliceOfSuffix(items, 2, 2 * j - 2, Min(2 * j, |items| - 2));
        }
      }
    } else if items != [] {
      assert Rows2(items)[0] == items == items[0..|items|];
    }
  }

  /** Reading the keyboard row by row gives back the category list, in order:
      no category is dropped, repeated or moved. */
  lemma {:induction false} Rows2Flatten<T>(items: seq<T>)
    ensures Flatten(Rows2(items)) == items
    decreases |items|
  {
    if |items| > 2 {
      Rows2Flatten(items[2..]);
      assert ([items[..2]] + Rows2(items[2..]))[1..] == Rows2(items[2..]);
      assert items[..2] + items[2..] == items;
    } else if items != [] {
      assert Flatten([items]) == items + Flatten<T>([]);
    }
  }

  /** Every row holds one or two buttons; all rows but the last hold two,
      and the last holds one exactly when the list has odd length. */
  lemma Rows2Shape<T>(items: seq<T>)
    ensures |Rows2(items)| == (|items| + 1) / 2
    ensures forall j :: 0 <= j < |Rows2(items)| ==> 1 <= |Rows2(items)[j]| <= 2
    ensures forall j :: 0 <= j < |Rows2(items)| - 1 ==> |Rows2(items)[j]| == 2
    ensures items != [] ==> (|Rows2(items)[|Rows2(items)| - 1]| == 1 <==> |items| % 2 == 1)
  {
    Rows2At(items);
  }

  /** The expense keyboard is three rows of 2, 2 and 1 buttons; the income
      keyboard is two rows of two. */
  lemma StandardKeyboards()
    ensures Rows2(ExpenseCategories) ==
      [["Еда", "Транспорт"], ["Развлечения", "Жилье"], ["Другое"]]
    ensures Rows2(IncomeCategories) == [["Зарплата", "Фриланс"], ["Подарки", "Другое"]]
  {
    var e := ExpenseCategories;
    assert e[..2] == ["Еда", "Транспорт"];
    assert e[2..][..2] == ["Развлечения", "Жилье"];
    assert e[2..][2..] == ["Другое"];
    var i := IncomeCategories;
    assert i[..2] == ["Зарплата", "Фриланс"];
    assert i[2..] == ["Подарки", "Другое"];
  }
}
