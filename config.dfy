// Constants of src/config.py used by the modelled core.
// Names that the configuration does not define (minimap, cloud and
// sniper-boss settings) are parameters of the members that use them.

module Config {

  datatype Color = RGB(r: int, g: int, b: int)

  const SCREEN_WIDTH: int := 1200
  const SCREEN_HEIGHT: int := 800

  const WHITE: Color := RGB(255, 255, 255)
  const RED: Color := RGB(255, 0, 0)
  const GREEN: Color := RGB(0, 255, 0)
  const YELLOW: Color := RGB(255, 255, 0)
  const PURPLE: Color := RGB(128, 0, 128)
  const CYAN: Color := RGB(0, 255, 255)
  const GRAY: Color := RGB(128, 128, 128)
  // The later definitions win in src/config.py.
  const LAVA_COLOR: Color := RGB(255, 69, 0)
  const WATER_COLOR: Color := RGB(0, 150, 255)
  const WIND_COLOR: Color := RGB(220, 220, 220)

  const PLAYER_WIDTH: int := 40
  const PLAYER_HEIGHT: int := 60
  const PLAYER_SPEED: real := 8.0
  const PLAYER_JUMP_STRENGTH: real := -20.0
  const PLAYER_MAX_HEALTH: int := 300

  const GRAVITY: real := 1.2
  const MAX_FALL_SPEED: real := 20.0
  const WALL_JUMP_STRENGTH: real := -17.0
  const WALL_JUMP_PUSH: real := 12.0
  const DOUBLE_JUMP_STRENGTH: real := -15.0

  const MELEE_RANGE: int := 80
  const BULLET_SPEED: real := 15.0
  const BULLET_SIZE: int := 8
  const FIRE_RATE: real := 0.3
  const MELEE_DAMAGE: int := 40
  const MELEE_KNOCKBACK: real := 100.0

  const LAVA_MONSTER_WIDTH: int := 50
  const LAVA_MONSTER_HEIGHT: int := 50
  const LAVA_MONSTER_SPEED: real := 3.0
  const LAVA_MONSTER_HEALTH: int := 80
  const LAVA_MONSTER_DAMAGE: int := 30

  const WATER_MONSTER_WIDTH: int := 45
  const WATER_MONSTER_HEIGHT: int := 45
  const WATER_MONSTER_SPEED: real := 5.0
  const WATER_MONSTER_HEALTH: int := 60
  const WATER_MONSTER_DAMAGE: int := 25

  const TORNADO_MONSTER_WIDTH: int := 40
  const TORNADO_MONSTER_HEIGHT: int := 70
  const TORNADO_MONSTER_SPEED: real := 8.0
  const TORNADO_MONSTER_HEALTH: int := 40
  const TORNADO_MONSTER_DAMAGE: int := 35

  const LAVA_TORNADO_BOSS_WIDTH: int := 120
  const LAVA_TORNADO_BOSS_HEIGHT: int := 150
  const LAVA_TORNADO_BOSS_SPEED: real := 4.0
  const LAVA_TORNADO_BOSS_HEALTH: int := 10000
  const LAVA_TORNADO_BOSS_DAMAGE: int := 50

  const TSUNAMI_BOSS_WIDTH: int := 150
  const TSUNAMI_BOSS_HEIGHT: int := 120
  const TSUNAMI_BOSS_SPEED: real := 3.0
  const TSUNAMI_BOSS_HEALTH: int := 12000
  const TSUNAMI_BOSS_DAMAGE: int := 60

  const WEAKNESS_MULTIPLIER: real := 2.0
  const RESISTANCE_MULTIPLIER: real := 0.5
  const SLOW_EFFECT_DURATION: real := 3.0
  const PARALYSIS_EFFECT_DURATION: real := 2.0

  const PLATFORM_HEIGHT: int := 30
}
