/** The game state of the tank (BlynkTank/CTank.cpp): hit points, ammunition
    and the reload flag, updated in place by `gotHitByDamage`, `gotHit`,
    `repairTank`, `newAmmos`, `shoot` and `ammoReloadDone`, together with the
    configuration members filled in by the two configuration readers. */
module Tank {
  import opened IRFrame
  import opened IRState
  import opened CIR
  import opened CStrings
  import opened Config

  /** uint8_t */
  type U8 = x: int | 0 <= x < 256

  /** MY_ID: the byte a shot sends over the IR link. */
  const MyId: Byte := 0x53

  const DefaultMaxHitPoints: U8 := 200
  const DefaultAmmoRechargeTime: U16 := 1500
  const DefaultAmmoDamage: U8 := 40
  const DefaultMaxAmmo: U8 := 20
  const DefaultRepairValue: U8 := 5
  const DefaultAmmoSpawnTime: nat := 7000

  /** Subtraction that stops at 0: the hit points left after a hit. */
  function SatSub(x: nat, d: nat): (r: nat)
    ensures r <= x
    ensures d <= x ==> r + d == x
    ensures d >= x ==> r == 0
  {
    if d >= x then 0 else x - d
  }

  /** Addition that stops at a cap: the hit points after a repair, the
      ammunition after new ammunition arrives. */
  function CapAdd(x: nat, d: nat, cap: nat): (r: nat)
    ensures r <= cap
    ensures x + d <= cap ==> r == x + d
    ensures x + d >= cap ==> r == cap
  {
    if x + d > cap then cap else x + d
  }

  /** The network members before they are read: default-constructed Strings. */
  const EmptyNetwork: NetworkConfig := NetworkConfig([], [], [], [], [], [], [])

  class CTank {
    /** m_pIRcom */
    var ir: IRLink?
    /** The String members holding the network settings. */
    var network: NetworkConfig
    /** m_servoMin_us, m_servoMax_us, m_servoCenter. */
    var servo: ServoConfig

    var maxHitPoints: U8
    var hitPoints: U8
    var ammoDamage: U8
    var maxAmmo: U8
    var ammo: U8
    var ammoRechargeTime: U16
    var repairValue: U8
    var isReloading: bool
    var ammoSpawnTime: nat
    var canRespawnAmmo: bool

    /** The game invariant: hit points and ammunition never exceed their maxima. */
    ghost predicate Valid()
      reads this
    {
      hitPoints <= maxHitPoints && ammo <= maxAmmo
    }

    /** The IR link as a set, empty when there is none; a method that sends
        through the link names the fields it changes by this set. */
    ghost function IR(): set<IRLink>
      reads this
    {
      if ir == null then {} else {ir}
    }

    /** `CTank::CTank`: creates the IR link, reads both configuration files
        (given as their lines, None when the file cannot be opened) or falls
        back to the defaults, and starts the game with full hit points and
        ammunition. The servo members start with `servoInit`, the values the
        uninitialised members hold until the tank file sets them. */
    constructor (networkFile: Option<seq<string>>, tankFile: Option<seq<string>>, servoInit: ServoConfig)
      ensures Valid()
      ensures fresh(ir) && ir != null && ir.Valid()
      ensures !ir.txActive && !ir.rxActive && ir.edgeArmed && ir.rxBuffer == NoValidData
      ensures network == if networkFile.Some? then ReadNetworkLines(EmptyNetwork, networkFile.value)
                         else NetworkDefaults
      ensures servo == if tankFile.Some? then ReadTankLines(servoInit, tankFile.value)
                       else ServoDefaults
      ensures maxHitPoints == DefaultMaxHitPoints && hitPoints == DefaultMaxHitPoints
      ensures maxAmmo == DefaultMaxAmmo && ammo == DefaultMaxAmmo
      ensures ammoDamage == DefaultAmmoDamage && repairValue == DefaultRepairValue
      ensures !isReloading && canRespawnAmmo
    {
      ir := new IRLink();
      network := EmptyNetwork;
      servo := servoInit;
      maxHitPoints, hitPoints := DefaultMaxHitPoints, DefaultMaxHitPoints;
      maxAmmo, ammo := DefaultMaxAmmo, DefaultMaxAmmo;
      ammoDamage := DefaultAmmoDamage;
      ammoRechargeTime := DefaultAmmoRechargeTime;
      repairValue := DefaultRepairValue;
      isReloading := false;
      ammoSpawnTime := DefaultAmmoSpawnTime;
      canRespawnAmmo := true;
      new;
      var networkRead := ReadNetworkConfigFile(networkFile);
      if !networkRead {
        network := NetworkDefaults;
      }
      var tankRead := ReadTankConfigFile(tankFile);
      if !tankRead {
        servo := ServoDefaults;
      }
    }

    /** `gotHitByDamage(damage)`: the hit points drop by the damage and stop
        at 0; the uint8_t subtraction is only done when it cannot wrap. */
    method GotHitByDamage(damage: U8) returns (hp: U8)
      requires Valid()
      modifies this`hitPoints
      ensures Valid()
      ensures hitPoints == SatSub(old(hitPoints), damage) && hp == hitPoints
    {
      if hitPoints - damage < 0 {
        hitPoints := 0;
      } else {
        hitPoints := (hitPoints - damage) % 256;
      }
      return hitPoints;
    }

    /** `gotHit`: a hit with the damage of one shot. */
    method GotHit() returns (hp: U8)
      requires Valid()
      modifies this`hitPoints
      ensures Valid()
      ensures hitPoints == SatSub(old(hitPoints), ammoDamage) && hp == hitPoints
    {
      hp := GotHitByDamage(ammoDamage);
    }

    /** `repairTank`: the hit points grow by the repair value and stop at
        the maximum; the uint8_t addition is only done when it cannot wrap. */
    method RepairTank() returns (hp: U8)
      requires Valid()
      modifies this`hitPoints
      ensures Valid()
      ensures hitPoints == CapAdd(old(hitPoints), repairValue, maxHitPoints) && hp == hitPoints
    {
      if hitPoints + repairValue > maxHitPoints {
        hitPoints := maxHitPoints;
      } else {
        hitPoints := (hitPoints + repairValue) % 256;
      }
      return hitPoints;
    }

    /** `newAmmos(ammos)`: the ammunition grows by `ammos` and stops at the
        maximum. */
    method NewAmmos(ammos: U8) returns (a: U8)
      requires Valid()
      modifies this`ammo
      ensures Valid()
      ensures ammo == CapAdd(old(ammo), ammos, maxAmmo) && a == ammo
    {
      if ammo + ammos > maxAmmo {
        ammo := maxAmmo;
      } else {
        ammo := (ammo + ammos) % 256;
      }
      return ammo;
    }

    /** `ammoReloadDone`, run by the reload timer: the tank may shoot again. */
    method AmmoReloadDone()
      modifies this`isReloading
      ensures !isReloading
    {
      isReloading := false;
    }

    /** `shoot`: refused, with nothing changed, without an IR link, while
        reloading, while the IR link is still sending or without ammunition.
        Otherwise MY_ID goes out on the IR link, reloading starts and
        exactly one round is used. */
    method Shoot() returns (ok: bool)
      requires Valid()
      requires ir != null ==> ir.Valid()
      modifies this`ammo, this`isReloading
      modifies IR()`txBuffer, IR()`bitTXed, IR()`txActive, IR()`txFrame, IR()`txEmitted,
               IR()`carrierOn, IR()`edgeArmed, IR()`txLevel
      ensures Valid()
      ensures ir != null ==> ir.Valid()
      ensures ok == (ir != null && !old(isReloading) && !old(ir.txActive) && old(ammo) > 0)
      ensures !ok ==> ammo == old(ammo) && isReloading == old(isReloading)
      ensures !ok && ir != null ==> unchanged(ir)
      ensures ok ==> ammo == old(ammo) - 1 && isReloading
      ensures ok ==> ir.Tx() == TxRegs(Frame(MyId), 0, true, Frame(MyId), [])
      ensures ok ==> ir.rxBuffer == old(ir.rxBuffer) && ir.rxActive == old(ir.rxActive)
      ensures ok ==> ir.carrierOn == (old(ir.carrierOn) && old(ir.rxActive))
      ensures ok ==> ir.edgeArmed == (old(ir.edgeArmed) || (old(ir.carrierOn) && !old(ir.rxActive)))
      ensures ok ==> ir.txLevel == if old(ir.carrierOn) && !old(ir.rxActive) then 0 else old(ir.txLevel)
      ensures ok ==> ir.bitRXed == old(ir.bitRXed) && ir.rxSamples == old(ir.rxSamples)
    {
      if ir == null {
        return false;
      }
      if isReloading {
        return false;
      }
      var sending := ir.IsSendingData();
      if sending {
        return false;
      }
      if ammo == 0 {
        return false;
      }
      var sent := ir.SendByte(MyId);
      isReloading := true;
      if ammo > 0 {
        ammo := ammo - 1;
      }
      return true;
    }

    /** `getHitCode`: the byte waiting in the IR mailbox, taken out of it,
        or NO_VALID_DATA when there is none or a frame is being received. */
    method GetHitCode() returns (code: int)
      requires ir != null && ir.Valid()
      modifies ir`rxBuffer, ir`edgeArmed
      ensures ir.Valid()
      ensures code == NoValidData || 0 <= code < 256
      ensures old(ir.rxBuffer) != NoValidData && !old(ir.rxActive) ==>
                code == old(ir.rxBuffer) && ir.rxBuffer == NoValidData && ir.edgeArmed
      ensures old(ir.rxBuffer) == NoValidData || old(ir.rxActive) ==>
                code == NoValidData && unchanged(ir)
    {
      var waiting := ir.Available();
      if waiting {
        code := ir.ReceiveByte();
        return;
      }
      return NoValidData;
    }

    /** `readNetworkConfigFile`: false, with nothing read, when the file
        cannot be opened; otherwise every line is dispatched on its tag as
        ReadNetworkLines describes, and a wrong version line loads the
        defaults and ends the reading. */
    method ReadNetworkConfigFile(file: Option<seq<string>>) returns (ok: bool)
      modifies this`network
      ensures ok == file.Some?
      ensures network == if file.Some? then ReadNetworkLines(old(network), file.value) else old(network)
    {
      if file.None? {
        return false;
      }
      NetworkTagsPrefixFree();
      var lines := file.value;
      var i := 0;
      while i < |lines|
        invariant 0 <= i <= |lines|
        invariant ReadNetworkLines(old(network), lines) == ReadNetworkLines(network, lines[i..])
      {
        var data := lines[i];
        assert lines[i..][0] == data && lines[i..][1..] == lines[i + 1..];
        var tag := FirstTag(data, NetworkTags);
        match tag {
          case None =>
          case Some(k) =>
            var value := RemoveAll(data, NetworkTags[k]);
            if k == 0 {
              if value != FileVersion {
                network := NetworkDefaults;
                return true;
              }
            } else if k == 1 {
              network := network.(wifiSsid := value);
            } else if k == 2 {
              network := network.(wifiPassword := value);
            } else if k == 3 {
              network := network.(hotspotSsid := value);
            } else if k == 4 {
              network := network.(hotspotPassword := value);
            } else if k == 5 {
              network := network.(blynkServer := value);
            } else if k == 6 {
              network := network.(blynkPort := value);
            } else {
              network := network.(blynkToken := value);
            }
        }
        i := i + 1;
      }
      return true;
    }

    /** `readTankConfigFile`: false, with nothing read, when the file cannot
        be opened; otherwise every line is dispatched on its tag as
        ReadTankLines describes: `atoi` of the value, stored in a uint16_t. */
    method ReadTankConfigFile(file: Option<seq<string>>) returns (ok: bool)
      modifies this`servo
      ensures ok == file.Some?
      ensures servo == if file.Some? then ReadTankLines(old(servo), file.value) else old(servo)
    {
      if file.None? {
        return false;
      }
      TankTagsPrefixFree();
      var lines := file.value;
      var i := 0;
      while i < |lines|
        invariant 0 <= i <= |lines|
        invariant ReadTankLines(old(servo), lines) == ReadTankLines(servo, lines[i..])
      {
        var data := lines[i];
        assert lines[i..][0] == data && lines[i..][1..] == lines[i + 1..];
        var tag := FirstTag(data, TankTags);
        match tag {
          case None =>
          case Some(k) =>
            var value := RemoveAll(data, TankTags[k]);
            if k == 0 {
              if value != FileVersion {
                servo := ServoDefaults;
                return true;
              }
            } else if k == 1 {
              servo := servo.(servoMin := ToU16(Atol(value)));
            } else if k == 2 {
              servo := servo.(servoMax := ToU16(Atol(value)));
            } else {
              servo := servo.(servoCenter := ToU16(Atol(value)));
            }
        }
        i := i + 1;
      }
      return true;
    }
  }
}
