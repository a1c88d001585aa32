/**
 * day_15.ts: the HASH algorithm (a running value that adds each character
 * code, multiplies by 17 and keeps the remainder modulo 256) and the sum of
 * the hashes of the comma-separated initialization steps.
 */
module Day15 {
  import opened Text

  /** One character of the algorithm: add its code, multiply by 17, reduce modulo 256. */
  function HashStep(current: nat, c: char): (next: nat)
    ensures next < 256
  {
    (current + c as int) * 17 % 256
  }

  /** The running value after the characters of `t`, starting from `start`. */
  function HashFrom(start: nat, t: string): (h: nat)
    ensures t != [] ==> h < 256
    decreases |t|
  {
    if t == [] then start else HashFrom(HashStep(start, t[0]), t[1..])
  }

  /** The hash of a string: `HashStep` folded from the left over its characters, starting at 0. */
  function HashOf(s: string): (h: nat)
    ensures h < 256
  {
    HashFrom(0, s)
  }

  /** `hash(input)`: the character loop of the source. */
  method Hash(input: string) returns (currentValue: nat)
    ensures currentValue == HashOf(input)
    ensures currentValue < 256
    ensures input == [] ==> currentValue == 0
  {
    currentValue := 0;
    for i := 0 to |input|
      invariant currentValue == HashOf(input[..i])
    {
      assert input[..i + 1] == input[..i] + [input[i]];
      HashAppend(0, input[..i], input[i]);
      currentValue := currentValue + input[i] as int;
      currentValue := currentValue * 17 % 256;
    }
    assert input[..|input|] == input;
  }

  /** Hashing one more character applies one more step to the value so far. */
  lemma {:induction false} HashAppend(start: nat, t: string, c: char)
    ensures HashFrom(start, t + [c]) == HashStep(HashFrom(start, t), c)
    decreases |t|
  {
    if t == [] {
      assert t + [c] == [c];
    } else {
      assert (t + [c])[1..] == t[1..] + [c];
      HashAppend(HashStep(start, t[0]), t[1..], c);
    }
  }

  /** The sum of the hashes of a list of steps (`map(hash).reduce(+, 0)`). */
  function SumOfHashes(steps: seq<string>): nat {
    if steps == [] then 0 else HashOf(steps[0]) + SumOfHashes(steps[1..])
  }

  /** `part1(input)`: the hashes of the comma-separated steps of the trimmed input, summed. */
  function Part1(input: string): (total: nat)
    ensures total <= 255 * |Split(TrimEnd(input), ",")|
  {
    SumBound(Split(TrimEnd(input), ","));
    SumOfHashes(Split(TrimEnd(input), ","))
  }

  /** Each step contributes at most 255. */
  lemma {:induction false} SumBound(steps: seq<string>)
    ensures SumOfHashes(steps) <= 255 * |steps|
  {
    if steps != [] {
      SumBound(steps[1..]);
    }
  }

  /** The worked example: `HASH` hashes to 52. */
  lemma {:induction false} ExampleHash()
    ensures HashOf("HASH") == 52
  {
    HashOfFourIs("HASH", 200, 153, 172, 52);
  }

  /** The hash of a string of three characters, step by step. */
  lemma {:induction false} HashOfThree(s: string)
    requires |s| == 3
    ensures HashOf(s) == HashStep(HashStep(HashStep(0, s[0]), s[1]), s[2])
  {
    HashFromCons(0, s);
    HashFromCons(HashStep(0, s[0]), s[1..]);
    HashFromCons(HashStep(HashStep(0, s[0]), s[1]), s[2..]);
    assert s[1..][0] == s[1] && s[1..][1..] == s[2..] && s[2..][0] == s[2] && s[2..][1..] == [];
  }

  /** The hash of a string of four characters, step by step. */
  lemma {:induction false} HashOfFour(s: string)
    requires |s| == 4
    ensures HashOf(s) == HashStep(HashStep(HashStep(HashStep(0, s[0]), s[1]), s[2]), s[3])
  {
    HashOfThree(s[..3]);
    assert s == s[..3] + [s[3]];
    HashAppend(0, s[..3], s[3]);
  }

  /** The hash of a three-character string whose running values are `h1`, `h2` and `h3`. */
  lemma {:induction false} HashOfThreeIs(s: string, h1: nat, h2: nat, h3: nat)
    requires |s| == 3 && HashStep(0, s[0]) == h1 && HashStep(h1, s[1]) == h2 && HashStep(h2, s[2]) == h3
    ensures HashOf(s) == h3
  {
    HashOfThree(s);
  }

  /** The hash of a four-character string whose running values are `h1` to `h4`. */
  lemma {:induction false} HashOfFourIs(s: string, h1: nat, h2: nat, h3: nat, h4: nat)
    requires |s| == 4 && HashStep(0, s[0]) == h1 && HashStep(h1, s[1]) == h2 && HashStep(h2, s[2]) == h3 && HashStep(h3, s[3]) == h4
    ensures HashOf(s) == h4
  {
    HashOfFour(s);
  }

  /** Hashing from a value: one step for the first character, then the rest. */
  lemma {:induction false} HashFromCons(start: nat, t: string)
    requires t != []
    ensures HashFrom(start, t) == HashFrom(HashStep(start, t[0]), t[1..])
  {
  }

  lemma {:induction false} StepHashRnis1()
    ensures HashOf("rn=1") == 30
  {
    HashOfFourIs("rn=1", 146, 0, 13, 30);
  }

  lemma {:induction false} StepHashCmdash()
    ensures HashOf("cm-") == 253
  {
    HashOfThreeIs("cm-", 147, 0, 253);
  }

  lemma {:induction false} StepHashQpis3()
    ensures HashOf("qp=3") == 97
  {
    HashOfFourIs("qp=3", 129, 1, 30, 97);
  }

  lemma {:induction false} StepHashCmis2()
    ensures HashOf("cm=2") == 47
  {
    HashOfFourIs("cm=2", 147, 0, 13, 47);
  }

  lemma {:induction false} StepHashQpdash()
    ensures HashOf("qp-") == 14
  {
    HashOfThreeIs("qp-", 129, 1, 14);
  }

  lemma {:induction false} StepHashPcis4()
    ensures HashOf("pc=4") == 180
  {
    HashOfFourIs("pc=4", 112, 3, 64, 180);
  }

  lemma {:induction false} StepHashOtis9()
    ensures HashOf("ot=9") == 9
  {
    HashOfFourIs("ot=9", 95, 3, 64, 9);
  }

  lemma {:induction false} StepHashAbis5()
    ensures HashOf("ab=5") == 197
  {
    HashOfFourIs("ab=5", 113, 3, 64, 197);
  }

  lemma {:induction false} StepHashPcdash()
    ensures HashOf("pc-") == 48
  {
    HashOfThreeIs("pc-", 112, 3, 48);
  }

  lemma {:induction false} StepHashPcis6()
    ensures HashOf("pc=6") == 214
  {
    HashOfFourIs("pc=6", 112, 3, 64, 214);
  }

  lemma {:induction false} StepHashOtis7()
    ensures HashOf("ot=7") == 231
  {
    HashOfFourIs("ot=7", 95, 3, 64, 231);
  }

  /** The hashes of steps one to four of the worked example. */
  lemma {:induction false} ExampleStepHashes1()
    ensures HashOf("rn=1") == 30 && HashOf("cm-") == 253 && HashOf("qp=3") == 97 && HashOf("cm=2") == 47
  {
    StepHashRnis1();
    StepHashCmdash();
    StepHashQpis3();
    StepHashCmis2();
  }

  /** The hashes of steps five to eight of the worked example. */
  lemma {:induction false} ExampleStepHashes2()
    ensures HashOf("qp-") == 14 && HashOf("pc=4") == 180 && HashOf("ot=9") == 9 && HashOf("ab=5") == 197
  {
    StepHashQpdash();
    StepHashPcis4();
    StepHashOtis9();
    StepHashAbis5();
  }

  /** The hashes of steps nine to eleven of the worked example. */
  lemma {:induction false} ExampleStepHashes3()
    ensures HashOf("pc-") == 48 && HashOf("pc=6") == 214 && HashOf("ot=7") == 231
  {
    StepHashPcdash();
    StepHashPcis6();
    StepHashOtis7();
  }

  /** The eleven initialization steps of the worked example. */
  const ExampleSteps: seq<string> := ["rn=1", "cm-", "qp=3", "cm=2", "qp-", "pc=4", "ot=9", "ab=5", "pc-", "pc=6", "ot=7"]

  /** The hashes of the example's steps sum to 1320. */
  lemma {:induction false} ExampleStepsSum()
    ensures SumOfHashes(ExampleSteps) == 1320
  {
    ExampleStepHashes1();
    ExampleStepHashes2();
    ExampleStepHashes3();
  }

  /** The example's line is its steps joined by commas. */
  lemma {:induction false} ExampleLine()
    ensures Join(ExampleSteps, ",") == "rn=1,cm-,qp=3,cm=2,qp-,pc=4,ot=9,ab=5,pc-,pc=6,ot=7"
  {
    var front, back := ["rn=1", "cm-", "qp=3", "cm=2", "qp-"], ["pc=4", "ot=9", "ab=5", "pc-", "pc=6", "ot=7"];
    ExampleLineFront(front);
    ExampleLineBack(back);
    JoinPair(front, back, "rn=1,cm-,qp=3,cm=2,qp-", "pc=4,ot=9,ab=5,pc-,pc=6,ot=7");
    ExampleLineHalves("rn=1,cm-,qp=3,cm=2,qp-", "pc=4,ot=9,ab=5,pc-,pc=6,ot=7");
    assert front + back == ExampleSteps;
  }

  lemma {:induction false} ExampleLineHalves(x: string, y: string)
    requires x == "rn=1,cm-,qp=3,cm=2,qp-" && y == "pc=4,ot=9,ab=5,pc-,pc=6,ot=7"
    ensures x + "," + y == "rn=1,cm-,qp=3,cm=2,qp-,pc=4,ot=9,ab=5,pc-,pc=6,ot=7"
  {
  }

  lemma {:induction false} ExampleLineFront(front: seq<string>)
    requires front == ["rn=1", "cm-", "qp=3", "cm=2", "qp-"]
    ensures Join(front, ",") == "rn=1,cm-,qp=3,cm=2,qp-"
  {
    JoinPair(["rn=1"], ["cm-"], "rn=1", "cm-");
    JoinPair(["qp=3"], ["cm=2"], "qp=3", "cm=2");
    JoinPair(["qp=3", "cm=2"], ["qp-"], "qp=3,cm=2", "qp-");
    JoinPair(["rn=1", "cm-"], ["qp=3", "cm=2", "qp-"], "rn=1,cm-", "qp=3,cm=2,qp-");
    assert ["rn=1", "cm-"] + ["qp=3", "cm=2", "qp-"] == front;
  }

  lemma {:induction false} ExampleLineBack(back: seq<string>)
    requires back == ["pc=4", "ot=9", "ab=5", "pc-", "pc=6", "ot=7"]
    ensures Join(back, ",") == "pc=4,ot=9,ab=5,pc-,pc=6,ot=7"
  {
    JoinPair(["pc=4"], ["ot=9"], "pc=4", "ot=9");
    JoinPair(["pc=4", "ot=9"], ["ab=5"], "pc=4,ot=9", "ab=5");
    JoinPair(["pc-"], ["pc=6"], "pc-", "pc=6");
    JoinPair(["pc-", "pc=6"], ["ot=7"], "pc-,pc=6", "ot=7");
    JoinPair(["pc=4", "ot=9", "ab=5"], ["pc-", "pc=6", "ot=7"], "pc=4,ot=9,ab=5", "pc-,pc=6,ot=7");
    assert ["pc=4", "ot=9", "ab=5"] + ["pc-", "pc=6", "ot=7"] == back;
  }

  lemma {:induction false} JoinPair(p: seq<string>, q: seq<string>, x: string, y: string)
    requires |p| >= 1 && |q| >= 1 && Join(p, ",") == x && Join(q, ",") == y
    ensures Join(p + q, ",") == x + "," + y
  {
    JoinAppend(p, q, ",");
  }

  /** `part1(TEST_INPUT)`: the test input, with its final newline, gives 1320. */
  lemma {:induction false} ExamplePart1(input: string)
    requires input == "rn=1,cm-,qp=3,cm=2,qp-,pc=4,ot=9,ab=5,pc-,pc=6,ot=7\n"
    ensures Part1(input) == 1320
  {
    var line := "rn=1,cm-,qp=3,cm=2,qp-,pc=4,ot=9,ab=5,pc-,pc=6,ot=7";
    ExampleTrim(input, line);
    ExampleSplit(line);
    ExampleStepsSum();
  }

  lemma {:induction false} ExampleTrim(input: string, line: string)
    requires input == "rn=1,cm-,qp=3,cm=2,qp-,pc=4,ot=9,ab=5,pc-,pc=6,ot=7\n"
    requires line == "rn=1,cm-,qp=3,cm=2,qp-,pc=4,ot=9,ab=5,pc-,pc=6,ot=7"
    ensures TrimEnd(input) == line
  {
    assert input == line + "\n";
    assert !IsWhitespace(line[|line| - 1]);
    TrimEndPad(line, "\n");
  }

  lemma {:induction false} ExampleSplit(line: string)
    requires line == "rn=1,cm-,qp=3,cm=2,qp-,pc=4,ot=9,ab=5,pc-,pc=6,ot=7"
    ensures Split(line, ",") == ExampleSteps
  {
    ExampleLine();
    ExampleStepsCommaFree();
    SplitJoin(ExampleSteps, ',');
  }

  lemma {:induction false} ExampleStepsCommaFree()
    ensures forall k :: 0 <= k < |ExampleSteps| ==> ',' !in ExampleSteps[k]
  {
    var steps := ExampleSteps;
    assert steps[0] == "rn=1" && steps[1] == "cm-" && steps[2] == "qp=3" && steps[3] == "cm=2";
    assert steps[4] == "qp-" && steps[5] == "pc=4" && steps[6] == "ot=9" && steps[7] == "ab=5";
    assert steps[8] == "pc-" && steps[9] == "pc=6" && steps[10] == "ot=7";
  }
}
